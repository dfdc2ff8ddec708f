/**
 * What the user service is for, with nothing of how it does it: a set of accounts,
 * the refresh tokens that are live, and one immortal token bucket per email. No
 * rows, hashes, indexes, cache, limiter pool or housekeeping.
 */
module ServiceSpec {
  import opened Clock
  import opened Wrappers
  import opened Tokens
  import opened Errors
  import opened UserService
  import R = RateLimiter
  import L = LimiterProofs

  datatype Account = Account(id: Id, email: string, username: string, password: string)

  /** `live` maps a usable refresh token to the end of its session; `issued` remembers every one handed out. */
  datatype Spec = Spec(accounts: set<Account>, live: map<Token, Time>, issued: set<Token>, buckets: L.Immortal)

  const NOTHING := Spec({}, map[], {}, map[])

  ghost function ByEmail(accounts: set<Account>, email: string): (r: Option<Account>)
    ensures r.Some? ==> r.value in accounts && r.value.email == email
    ensures r.None? ==> forall a :: a in accounts ==> a.email != email
  {
    if exists a :: a in accounts && a.email == email then
      var a :| a in accounts && a.email == email; Some(a)
    else None
  }

  ghost function ByID(accounts: set<Account>, id: Id): (r: Option<Account>)
    ensures r.Some? ==> r.value in accounts && r.value.id == id
    ensures r.None? ==> forall a :: a in accounts ==> a.id != id
  {
    if exists a :: a in accounts && a.id == id then
      var a :| a in accounts && a.id == id; Some(a)
    else None
  }

  /** Hand out a pair of tokens; the session table takes each refresh token only once. */
  function Issue(backend: Backend, s: Spec, sub: Id, accessAt: Time, refreshAt: Time, sessAt: Time): (Spec, Response) {
    var (access, refresh) := Generate(sub, accessAt, refreshAt);
    if backend.Table? && refresh in s.issued then (s, Failed(ERR_INTERNAL))
    else (s.(live := s.live[refresh := sessAt + REFRESH_TTL], issued := s.issued + {refresh}),
        TokenPair(access, refresh))
  }

  ghost function Credentials(backend: Backend, s: Spec, op: Op): (Spec, Response)
    requires op.Login?
  {
    var found := ByEmail(s.accounts, op.email);
    if found.None? || found.value.password != op.password then (s, Failed(ERR_INVALID_CREDENTIALS))
    else if !op.signs then (s, Failed(ERR_INTERNAL))
    else Issue(backend, s, found.value.id, op.accessAt, op.refreshAt, op.sessAt)
  }

  ghost function SpecLogin(backend: Backend, rate: R.Rate, s: Spec, op: Op): (Spec, Response)
    requires op.Login?
  {
    var (b, allowed) := R.Allow(L.BucketOf(s.buckets, rate, op.email), op.allowAt);
    var s1 := s.(buckets := s.buckets[op.email := b]);
    if allowed then Credentials(backend, s1, op) else (s1, Failed(ERR_RATE_LIMITED))
  }

  ghost function SpecRegister(s: Spec, op: Op): (Spec, Response)
    requires op.Register?
  {
    if !op.valid then (s, Invalid)
    else if !op.hashes then (s, Failed(ERR_INTERNAL))
    else if ByEmail(s.accounts, op.email).Some? then (s, Failed(ERR_EMAIL_IN_USE))
    else (s.(accounts := s.accounts + {Account(op.id, op.email, op.username, op.password)}), Registered(op.id))
  }

  function SpecRefresh(backend: Backend, s: Spec, op: Op): (Spec, Response)
    requires op.Refresh?
  {
    var sub := Verify(op.token, op.verifyAt);
    if sub.None? || op.token !in s.live || s.live[op.token] < op.checkAt then (s, Failed(ERR_INVALID_CREDENTIALS))
    else
      var spent := s.(live := s.live - {op.token});
      if !op.signs then (spent, Failed(ERR_INTERNAL))
      else Issue(backend, spent, sub.value, op.accessAt, op.refreshAt, op.sessAt)
  }

  ghost function SpecStep(backend: Backend, rate: R.Rate, s: Spec, op: Op): (Spec, Response) {
    match op
    case Register(_, _, _, _, _, _, _, _) => SpecRegister(s, op)
    case Login(_, _, _, _, _, _, _, _, _) => SpecLogin(backend, rate, s, op)
    case GetProfile(userId) =>
      if userId.None? then (s, Failed(ERR_VALIDATION))
      else
        var found := ByID(s.accounts, userId.value);
        (s, if found.None? then Failed(ERR_NOT_FOUND)
            else Profile(userId.value, found.value.email, found.value.username))
    case Refresh(_, _, _, _, _, _, _, _, _) => SpecRefresh(backend, s, op)
    case Logout(token, _, _) => (s.(live := s.live - {token}), LoggedOut)
    case Cleanup(_) => (s, Cleaned)
  }

  /** The responses the specification gives to a run. */
  ghost function SpecResponses(backend: Backend, rate: R.Rate, s: Spec, events: seq<Event>): seq<Response>
    decreases |events|
  {
    if events == [] then []
    else
      var (after, r) := SpecStep(backend, rate, s, events[0].op);
      [r] + SpecResponses(backend, rate, after, events[1..])
  }
}
