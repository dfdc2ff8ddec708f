/**
 * Exactly when a revoked refresh token comes back (internal/user/service/service.go,
 * pkg/auth/jwt.go): within its issue second the same string may be issued again.
 */
module Revocation {
  import opened Clock
  import opened Wrappers
  import opened Tokens
  import opened Repository
  import opened UserService
  import opened SessionProofs
  import opened OneUse
  import R = RateLimiter
  import L = LimiterProofs

  // ---------- the condition ----------

  function LastInstant(second: int): Time {
    second * SECOND + SECOND - 1
  }

  /** The limiter can let the email pass by `last`: it is new, or will have credit, or its entry can be swept. */
  predicate CanPass(cfg: Config, pool: R.Pool, email: string, last: Time) {
    && 1 <= cfg.rate.burst
    && (|| email !in pool
        || cfg.rate.interval <= R.Level(pool[email].bucket, last)
        || pool[email].exp < last)
  }

  /** Another token of the same user with which a refresh would succeed. */
  predicate Sibling(st: Store, now: Time, token: Token, other: Token) {
    token.Signed? && other.Signed? && other.sub == token.sub && Live(st, other) && Alive(other, now)
  }

  /** The issue second is not over, and the user can still log in or refresh another token within it. */
  ghost predicate CanReissue(cfg: Config, s: Svc, now: Time, token: Token) {
    && cfg.backend.Memory? && token.Signed? && token.sub in s.store.users
    && Unix(now) == IssuedSecond(token)
    && (|| CanPass(cfg, s.pool, s.store.users[token.sub].email, LastInstant(IssuedSecond(token)))
        || exists other :: Sibling(s.store, now, token, other))
  }

  // ---------- what every run keeps about limiter and hashes ----------

  ghost predicate EntryOk(cfg: Config, pool: R.Pool, k: string, now: Time) {
    k in pool ==> L.Sane(pool[k].bucket, cfg.rate, now) && pool[k].exp <= now + cfg.pool.ttl
  }

  ghost predicate PoolOk(cfg: Config, pool: R.Pool, now: Time) {
    forall k :: EntryOk(cfg, pool, k, now)
  }

  ghost predicate Hashed(st: Store, id: Id) {
    id in st.users ==> st.users[id].passwordHash.Bcrypt?
  }

  ghost predicate GateOk(cfg: Config, s: Svc, now: Time) {
    PoolOk(cfg, s.pool, now) && forall id :: Hashed(s.store, id)
  }

  ghost predicate Sound(cfg: Config, s: Svc, now: Time) {
    StoreOk(cfg.backend, s.store, now) && GateOk(cfg, s, now)
  }

  lemma PoolLater(cfg: Config, pool: R.Pool, now: Time, later: Time)
    requires PoolOk(cfg, pool, now) && now <= later
    ensures PoolOk(cfg, pool, later)
  {
    forall k ensures EntryOk(cfg, pool, k, later) {
      assert EntryOk(cfg, pool, k, now);
    }
  }

  lemma PassPoolOk(cfg: Config, pool: R.Pool, now: Time, email: string, getAt: Time, allowAt: Time)
    requires PoolOk(cfg, pool, now) && now <= getAt <= allowAt
    ensures PoolOk(cfg, R.Pass(cfg.pool, pool, email, cfg.rate, getAt, allowAt).0, allowAt)
  {
    var after := R.Pass(cfg.pool, pool, email, cfg.rate, getAt, allowAt).0;
    var b := if email in pool then pool[email].bucket else R.NewBucket(cfg.rate);
    assert EntryOk(cfg, pool, email, now);
    L.BudgetStep(cfg.rate, b, now, allowAt, now, now);
    forall k ensures EntryOk(cfg, after, k, allowAt) {
      assert EntryOk(cfg, pool, k, now);
    }
  }

  lemma StepGateOk(cfg: Config, s: Svc, now: Time, op: Op, mode: CacheMode)
    requires GateOk(cfg, s, now) && ClockOk(now, op) && IdsFresh(s.store, op)
    ensures GateOk(cfg, Step(cfg, s, op, mode).0, TimeAfter(now, op))
  {
    UsersStay(cfg, s, op, mode);
    PoolStep(cfg, s, now, op, mode);
  }

  lemma PoolStep(cfg: Config, s: Svc, now: Time, op: Op, mode: CacheMode)
    requires PoolOk(cfg, s.pool, now) && ClockOk(now, op)
    ensures PoolOk(cfg, Step(cfg, s, op, mode).0.pool, TimeAfter(now, op))
  {
    hide R.Pass, PoolOk;
    if op.Login? {
      PassPoolOk(cfg, s.pool, now, op.email, op.getAt, op.allowAt);
      PoolLater(cfg, R.Pass(cfg.pool, s.pool, op.email, cfg.rate, op.getAt, op.allowAt).0, op.allowAt, op.sessAt);
    } else {
      PoolLater(cfg, s.pool, now, TimeAfter(now, op));
    }
  }

  /** Rows of users never change; new ones carry a hash. */
  lemma UsersStay(cfg: Config, s: Svc, op: Op, mode: CacheMode)
    requires IdsFresh(s.store, op)
    ensures var st, st' := s.store, Step(cfg, s, op, mode).0.store;
            && (forall id :: id in st.users ==> id in st'.users && st'.users[id] == st.users[id])
            && ((forall id :: Hashed(st, id)) ==> forall id :: Hashed(st', id))
  {
    hide R.Pass;
    var st, st' := s.store, Step(cfg, s, op, mode).0.store;
    if forall id :: Hashed(st, id) {
      forall id ensures Hashed(st', id) {
        assert Hashed(st, id);
      }
    }
  }

  lemma {:induction false} RunGateOk(cfg: Config, s: Svc, now: Time, events: seq<Event>)
    requires GateOk(cfg, s, now) && Legal(cfg, s, now, events)
    ensures GateOk(cfg, Run(cfg, s, events), EndTime(now, events))
    decreases |events|
  {
    if events != [] {
      hide Step, GateOk;
      StepGateOk(cfg, s, now, events[0].op, events[0].mode);
      RunGateOk(cfg, Step(cfg, s, events[0].op, events[0].mode).0, TimeAfter(now, events[0].op), events[1..]);
    }
  }

  // ---------- without the condition the token is dead ----------

  lemma PassRefused(cfg: Config, pool: R.Pool, now: Time, email: string, getAt: Time, allowAt: Time, last: Time)
    requires PoolOk(cfg, pool, now) && !CanPass(cfg, pool, email, last)
    requires now <= getAt <= allowAt <= last
    ensures !R.Pass(cfg.pool, pool, email, cfg.rate, getAt, allowAt).1
    ensures !CanPass(cfg, R.Pass(cfg.pool, pool, email, cfg.rate, getAt, allowAt).0, email, last)
  {
    assert EntryOk(cfg, pool, email, now);
    if email in pool {
      L.LevelLater(pool[email].bucket, cfg.rate, now, allowAt);
      L.LevelLater(pool[email].bucket, cfg.rate, now, last);
    }
  }

  /** A Login of another email cannot help: it sweeps the entry only after it has expired. */
  lemma OthersDoNotHelp(cfg: Config, pool: R.Pool, email: string, other: string, getAt: Time, allowAt: Time, last: Time)
    requires !CanPass(cfg, pool, email, last) && other != email && getAt <= last
    ensures !CanPass(cfg, R.Pass(cfg.pool, pool, other, cfg.rate, getAt, allowAt).0, email, last)
  {
  }

  /** The user can neither log in nor refresh until `last`. */
  ghost predicate ShutOut(cfg: Config, s: Svc, now: Time, token: Token, last: Time) {
    && token.Signed? && token.sub in s.store.users
    && !CanPass(cfg, s.pool, s.store.users[token.sub].email, last)
    && forall other :: !Sibling(s.store, now, token, other)
  }

  /** When an operation hands out a refresh token, at the latest. */
  function IssuesAt(now: Time, op: Op): Time {
    if op.Login? || op.Refresh? then op.refreshAt else now
  }

  lemma LoginShutOut(cfg: Config, s: Svc, now: Time, op: Op, mode: CacheMode, token: Token, last: Time)
    requires op.Login? && Sound(cfg, s, now) && ClockOk(now, op) && op.refreshAt <= last
    requires ShutOut(cfg, s, now, token, last)
    ensures var r := LoginStep(cfg, s, op, mode).1; r.TokenPair? ==> r.refresh.Signed? && r.refresh.sub != token.sub
  {
    var email := s.store.users[token.sub].email;
    if op.email == email {
      PassRefused(cfg, s.pool, now, email, op.getAt, op.allowAt, last);
    }
    hide R.Pass, CanPass;
    Lookups(cfg.backend, s.store, now, op.email, Sha256(token));
  }

  lemma RefreshShutOut(cfg: Config, s: Svc, now: Time, op: Op, token: Token, last: Time)
    requires op.Refresh? && Sound(cfg, s, now) && ClockOk(now, op)
    requires ShutOut(cfg, s, now, token, last)
    ensures var r := RefreshStep(cfg, s, op).1; r.TokenPair? ==> r.refresh.Signed? && r.refresh.sub != token.sub
  {
    hide CanPass;
    assert !Sibling(s.store, now, token, op.token);
    Lookups(cfg.backend, s.store, now, "", Sha256(op.token));
  }

  lemma NothingForTheUser(cfg: Config, s: Svc, now: Time, op: Op, mode: CacheMode, token: Token, last: Time)
    requires Sound(cfg, s, now) && ClockOk(now, op) && IssuesAt(now, op) <= last
    requires ShutOut(cfg, s, now, token, last)
    ensures var r := Step(cfg, s, op, mode).1; r.TokenPair? ==> r.refresh.Signed? && r.refresh.sub != token.sub
  {
    var s0 := s.(cache := AfterLosses(s.cache, mode));
    assert ShutOut(cfg, s0, now, token, last);
    hide ShutOut, LoginStep, RefreshStep;
    match op
    case Login(_, _, _, _, _, _, _, _, _) => LoginShutOut(cfg, s0, now, op, mode, token, last);
    case Refresh(_, _, _, _, _, _, _, _, _) => RefreshShutOut(cfg, s0, now, op, token, last);
    case Register(_, _, _, _, _, _, _, _) =>
    case GetProfile(_) =>
    case Logout(_, _, _) =>
    case Cleanup(_) =>
  }

  lemma PassStaysRefused(cfg: Config, s: Svc, now: Time, op: Op, mode: CacheMode, email: string, last: Time)
    requires PoolOk(cfg, s.pool, now) && ClockOk(now, op) && TimeAfter(now, op) <= last
    requires !CanPass(cfg, s.pool, email, last)
    ensures !CanPass(cfg, Step(cfg, s, op, mode).0.pool, email, last)
  {
    hide R.Pass, CanPass;
    if op.Login? {
      if op.email == email {
        PassRefused(cfg, s.pool, now, email, op.getAt, op.allowAt, last);
      } else {
        OthersDoNotHelp(cfg, s.pool, email, op.email, op.getAt, op.allowAt, last);
      }
    }
  }

  lemma StaysShutOut(cfg: Config, s: Svc, now: Time, op: Op, mode: CacheMode, token: Token, last: Time)
    requires Sound(cfg, s, now) && ClockOk(now, op) && IdsFresh(s.store, op) && TimeAfter(now, op) <= last
    requires ShutOut(cfg, s, now, token, last)
    ensures ShutOut(cfg, Step(cfg, s, op, mode).0, TimeAfter(now, op), token, last)
  {
    hide Step, CanPass, Live, StoreOk, PoolOk;
    var (after, r) := Step(cfg, s, op, mode);
    UsersStay(cfg, s, op, mode);
    PassStaysRefused(cfg, s, now, op, mode, s.store.users[token.sub].email, last);
    NothingForTheUser(cfg, s, now, op, mode, token, last);
    forall other ensures !Sibling(after.store, TimeAfter(now, op), token, other) {
      assert !Sibling(s.store, now, token, other);
      LiveStep(cfg, s, now, op, mode, other);
    }
  }

  /** The token is not live, and cannot be issued again in its second. */
  ghost predicate Blocked(cfg: Config, s: Svc, now: Time, token: Token) {
    && token.Signed? && !Live(s.store, token)
    && (|| IssuedSecond(token) < Unix(now)
        || (cfg.backend.Table? && Sha256(token) in s.store.byToken)
        || ShutOut(cfg, s, now, token, LastInstant(IssuedSecond(token))))
  }

  /** The table keeps the hash of a token until long after its issue second. */
  lemma TableKeepsHash(cfg: Config, s: Svc, now: Time, op: Op, mode: CacheMode, token: Token)
    requires cfg.backend.Table? && StoreOk(Table, s.store, now) && ClockOk(now, op) && token.Signed?
    requires Sha256(token) in s.store.byToken && Unix(TimeAfter(now, op)) <= IssuedSecond(token)
    ensures Sha256(token) in Step(cfg, s, op, mode).0.store.byToken && !Issued(Step(cfg, s, op, mode).1, token)
  {
    hide R.Pass;
    var h := Sha256(token);
    assert TokenOk(s.store, h) && RowOk(s.store, s.store.byToken[h], now);
    UnixBounds(TimeAfter(now, op));
  }

  lemma TableNeverReissues(cfg: Config, s: Svc, op: Op, mode: CacheMode, token: Token)
    requires cfg.backend.Table? && Sha256(token) in s.store.byToken
    ensures !Issued(Step(cfg, s, op, mode).1, token)
  {
    hide R.Pass;
  }

  lemma IssuedInItsSecond(cfg: Config, s: Svc, now: Time, op: Op, mode: CacheMode, token: Token)
    requires token.Signed? && Issued(Step(cfg, s, op, mode).1, token)
    ensures (op.Login? || op.Refresh?) && IssuedSecond(token) == Unix(op.refreshAt)
  {
    hide R.Pass;
    RefreshTokenSecond(token.sub, op.accessAt, op.refreshAt);
  }

  lemma NotReissued(cfg: Config, s: Svc, now: Time, op: Op, mode: CacheMode, token: Token)
    requires Sound(cfg, s, now) && ClockOk(now, op) && Blocked(cfg, s, now, token)
    ensures !Issued(Step(cfg, s, op, mode).1, token)
  {
    hide Step, ShutOut, Live, StoreOk, PoolOk;
    if Issued(Step(cfg, s, op, mode).1, token) {
      IssuedInItsSecond(cfg, s, now, op, mode, token);
      UnixMonotone(now, op.refreshAt);
      UnixBounds(op.refreshAt);
      if cfg.backend.Table? && Sha256(token) in s.store.byToken {
        TableNeverReissues(cfg, s, op, mode, token);
      } else {
        NothingForTheUser(cfg, s, now, op, mode, token, LastInstant(IssuedSecond(token)));
      }
    }
  }

  lemma BlockedStep(cfg: Config, s: Svc, now: Time, op: Op, mode: CacheMode, token: Token)
    requires Sound(cfg, s, now) && ClockOk(now, op) && IdsFresh(s.store, op) && Blocked(cfg, s, now, token)
    ensures Blocked(cfg, Step(cfg, s, op, mode).0, TimeAfter(now, op), token)
    ensures !Used(op, Step(cfg, s, op, mode).1, token)
  {
    hide Step, ShutOut, Live, StoreOk, PoolOk;
    var t := TimeAfter(now, op);
    NotReissued(cfg, s, now, op, mode, token);
    LiveStep(cfg, s, now, op, mode, token);
    if Unix(t) <= IssuedSecond(token) {
      UnixBounds(t);
      ClockMoves(now, op);
      UnixMonotone(now, t);
      if cfg.backend.Table? && Sha256(token) in s.store.byToken {
        TableKeepsHash(cfg, s, now, op, mode, token);
      } else {
        StaysShutOut(cfg, s, now, op, mode, token, LastInstant(IssuedSecond(token)));
      }
    }
  }

  lemma ClockMoves(now: Time, op: Op)
    requires ClockOk(now, op)
    ensures now <= TimeAfter(now, op)
  {
  }

  lemma {:induction false} BlockedNeverUsed(cfg: Config, s: Svc, now: Time, events: seq<Event>, token: Token)
    requires Sound(cfg, s, now) && Legal(cfg, s, now, events) && Blocked(cfg, s, now, token)
    ensures Uses(cfg, s, events, token) == 0
    decreases |events|
  {
    if events != [] {
      hide Step, Blocked, StoreOk, GateOk;
      var op, mode := events[0].op, events[0].mode;
      BlockedStep(cfg, s, now, op, mode, token);
      StepOk(cfg, s, now, op, mode);
      StepGateOk(cfg, s, now, op, mode);
      BlockedNeverUsed(cfg, Step(cfg, s, op, mode).0, TimeAfter(now, op), events[1..], token);
    }
  }

  // ---------- with the condition it comes back ----------

  /** One run after another. */
  lemma {:induction false} Extend(cfg: Config, s: Svc, now: Time, xs: seq<Event>, ys: seq<Event>)
    requires Legal(cfg, s, now, xs)
    ensures EndTime(now, xs + ys) == EndTime(EndTime(now, xs), ys)
    ensures Run(cfg, s, xs + ys) == Run(cfg, Run(cfg, s, xs), ys)
    ensures Legal(cfg, s, now, xs + ys) <==> Legal(cfg, Run(cfg, s, xs), EndTime(now, xs), ys)
    decreases |xs|
  {
    hide Step;
    if xs == [] {
      assert xs + ys == ys;
    } else {
      var op, mode := xs[0].op, xs[0].mode;
      assert (xs + ys)[0] == xs[0] && (xs + ys)[1..] == xs[1..] + ys;
      Extend(cfg, Step(cfg, s, op, mode).0, TimeAfter(now, op), xs[1..], ys);
    }
  }

  lemma {:induction false} UsesOfTail(cfg: Config, s: Svc, xs: seq<Event>, ys: seq<Event>, token: Token)
    ensures Uses(cfg, s, xs + ys, token) >= Uses(cfg, Run(cfg, s, xs), ys, token)
    decreases |xs|
  {
    hide Step;
    if xs == [] {
      assert xs + ys == ys;
    } else {
      assert (xs + ys)[0] == xs[0] && (xs + ys)[1..] == xs[1..] + ys;
      UsesOfTail(cfg, Step(cfg, s, xs[0].op, xs[0].mode).0, xs[1..], ys, token);
    }
  }

  /** There is always a string that no finite set holds. */
  lemma {:induction false} LongerThanAll(set_: set<string>) returns (n: nat)
    ensures forall x :: x in set_ ==> |x| < n
  {
    if set_ == {} {
      n := 0;
    } else {
      var x :| x in set_;
      var m := LongerThanAll(set_ - {x});
      n := if m <= |x| then |x| + 1 else m;
    }
  }

  lemma FreshString(set_: set<string>) returns (x: string)
    ensures x !in set_
  {
    var n := LongerThanAll(set_);
    x := R.Name(n);
  }

  /** A Login that the limiter sees and that changes nothing else: signing fails. */
  function Knock(email: string, sid: Id, t: Time): Event {
    Event(Login(email, "", t, t, t, t, t, false, sid), NoCache)
  }

  lemma KnockOnlyTouchesPool(cfg: Config, s: Svc, now: Time, email: string, sid: Id, t: Time)
    requires now <= t && sid !in s.store.sessions
    ensures var e := Knock(email, sid, t);
            && Legal(cfg, s, now, [e])
            && Run(cfg, s, [e]) == s.(pool := R.Pass(cfg.pool, s.pool, email, cfg.rate, t, t).0)
            && EndTime(now, [e]) == t
  {
    hide R.Pass;
    var e := Knock(email, sid, t);
    var after := Step(cfg, s, e.op, e.mode).0;
    assert [e][1..] == [];
    assert Legal(cfg, after, t, []) && Run(cfg, after, []) == after;
  }

  /** An expired entry can be made to go: Logins of new emails fill the pool up to its sweep. */
  lemma Evict(cfg: Config, s: Svc, now: Time, email: string, t: Time) returns (events: seq<Event>)
    requires now <= t && email in s.pool && s.pool[email].exp < t
    ensures Legal(cfg, s, now, events) && EndTime(now, events) == t
    ensures var s' := Run(cfg, s, events); s'.store == s.store && email !in s'.pool
    decreases if |s.pool| < cfg.pool.maxKeys then cfg.pool.maxKeys - |s.pool| else 0
  {
    var other := FreshString(s.pool.Keys);
    var sid := FreshString(s.store.sessions.Keys);
    KnockOnlyTouchesPool(cfg, s, now, other, sid, t);
    var s1 := Run(cfg, s, [Knock(other, sid, t)]);
    if |s.pool| >= cfg.pool.maxKeys {
      events := [Knock(other, sid, t)];
    } else {
      assert s1.pool.Keys == s.pool.Keys + {other};
      var rest := Evict(cfg, s1, t, email, t);
      Extend(cfg, s, now, [Knock(other, sid, t)], rest);
      events := [Knock(other, sid, t)] + rest;
    }
  }

  /** The email's limiter lets one Login pass. */
  predicate Admits(cfg: Config, pool: R.Pool, email: string, t: Time) {
    R.Pass(cfg.pool, pool, email, cfg.rate, t, t).1
  }

  lemma NewEmailAdmitted(cfg: Config, pool: R.Pool, email: string, t: Time)
    requires email !in pool && 1 <= cfg.rate.burst
    ensures Admits(cfg, pool, email, t)
  {
    L.CapCovers(cfg.rate);
  }

  /** Whoever can pass by `last` does pass at `last`, perhaps after the pool was filled. */
  lemma Admit(cfg: Config, s: Svc, now: Time, email: string, last: Time) returns (events: seq<Event>)
    requires PoolOk(cfg, s.pool, now) && now <= last && CanPass(cfg, s.pool, email, last)
    ensures Legal(cfg, s, now, events) && EndTime(now, events) <= last
    ensures var s' := Run(cfg, s, events); s'.store == s.store && Admits(cfg, s'.pool, email, last)
  {
    assert EntryOk(cfg, s.pool, email, now);
    if email !in s.pool {
      NewEmailAdmitted(cfg, s.pool, email, last);
      events := [];
    } else if cfg.rate.interval <= R.Level(s.pool[email].bucket, last) {
      events := [];
    } else {
      events := Evict(cfg, s, now, email, last);
      NewEmailAdmitted(cfg, Run(cfg, s, events).pool, email, last);
    }
  }

  /** A live token that has not expired refreshes. */
  lemma LiveIsUsable(cfg: Config, s: Svc, now: Time, token: Token, t: Time, sid: Id)
    requires cfg.backend.Memory? && StoreOk(Memory, s.store, now) && now <= t
    requires Live(s.store, token) && Alive(token, t) && sid !in s.store.sessions
    ensures var e := Again(token, t, sid);
            && Legal(cfg, s, now, [e]) && EndTime(now, [e]) == t
            && Uses(cfg, s, [e], token) == 1
            && Live(Run(cfg, s, [e]).store, Generate(token.sub, t, t).1)
  {
    var e := Again(token, t, sid);
    var (after, r) := Step(cfg, s, e.op, e.mode);
    assert [e][1..] == [];
    Lookups(Memory, s.store, now, "", Sha256(token));
    assert Refreshable(s.store, token, t, t).Some?;
    assert r == TokenPair(Generate(token.sub, t, t).0, Generate(token.sub, t, t).1);
    LiveRefresh(cfg, s, now, e.op, r.refresh);
    assert Legal(cfg, after, t, []) && Run(cfg, after, []) == after && Uses(cfg, after, [], token) == 0;
  }

  /** A Login that succeeds at one instant. */
  function LogIn(u: User, t: Time, sid: Id): Event
    requires u.passwordHash.Bcrypt?
  {
    Event(Login(u.email, u.passwordHash.password, t, t, t, t, t, true, sid), NoCache)
  }

  lemma LoginIssues(cfg: Config, s: Svc, now: Time, sub: Id, t: Time, sid: Id)
    requires cfg.backend.Memory? && StoreOk(Memory, s.store, now) && now <= t
    requires sub in s.store.users && s.store.users[sub].passwordHash.Bcrypt?
    requires Admits(cfg, s.pool, s.store.users[sub].email, t) && sid !in s.store.sessions
    ensures var e := LogIn(s.store.users[sub], t, sid);
            && Legal(cfg, s, now, [e]) && EndTime(now, [e]) == t
            && Live(Run(cfg, s, [e]).store, Generate(sub, t, t).1)
  {
    hide R.Pass;
    var u := s.store.users[sub];
    var e := LogIn(u, t, sid);
    assert UserOk(s.store, sub);
    var (after, r) := Step(cfg, s, e.op, e.mode);
    assert [e][1..] == [];
    assert r == TokenPair(Generate(sub, t, t).0, Generate(sub, t, t).1);
    var token := Generate(sub, t, t).1;
    assert after.store == CreateSession(s.store, NewSession(sid, sub, token, t));
    assert Legal(cfg, after, t, []) && Run(cfg, after, []) == after;
  }

  /** Some legal run uses the token. */
  ghost predicate UsedAgain(cfg: Config, s: Svc, now: Time, token: Token, events: seq<Event>) {
    Legal(cfg, s, now, events) && Uses(cfg, s, events, token) >= 1
  }

  /** After a run that made the token live, one more refresh uses it. */
  lemma ThenUse(cfg: Config, s: Svc, now: Time, token: Token, events: seq<Event>, t: Time) returns (all: seq<Event>)
    requires cfg.backend.Memory? && Sound(cfg, s, now) && Legal(cfg, s, now, events) && EndTime(now, events) <= t
    requires Live(Run(cfg, s, events).store, token) && Alive(token, t)
    ensures UsedAgain(cfg, s, now, token, all)
  {
    hide Uses, Live;
    RunOk(cfg, s, now, events);
    var s' := Run(cfg, s, events);
    var sid := FreshString(s'.store.sessions.Keys);
    LiveIsUsable(cfg, s', EndTime(now, events), token, t, sid);
    Extend(cfg, s, now, events, [Again(token, t, sid)]);
    UsesOfTail(cfg, s, events, [Again(token, t, sid)], token);
    all := events + [Again(token, t, sid)];
  }

  lemma TokenOfSecond(token: Token, t: Time)
    requires token.Signed? && Unix(t) == IssuedSecond(token)
    ensures Generate(token.sub, t, t).1 == token && Alive(token, t)
  {
    RefreshTokenSecond(token.sub, t, t);
    UnixBounds(t);
  }

  lemma ByLogin(cfg: Config, s: Svc, now: Time, token: Token) returns (all: seq<Event>)
    requires cfg.backend.Memory? && Sound(cfg, s, now) && token.Signed? && token.sub in s.store.users
    requires Unix(now) == IssuedSecond(token)
    requires CanPass(cfg, s.pool, s.store.users[token.sub].email, LastInstant(IssuedSecond(token)))
    ensures UsedAgain(cfg, s, now, token, all)
  {
    hide Uses, Live, CanPass;
    var last := LastInstant(IssuedSecond(token));
    UnixBounds(now);
    TokenOfSecond(token, last);
    assert Hashed(s.store, token.sub);
    var fill := Admit(cfg, s, now, s.store.users[token.sub].email, last);
    RunOk(cfg, s, now, fill);
    var s' := Run(cfg, s, fill);
    var sid := FreshString(s'.store.sessions.Keys);
    LoginIssues(cfg, s', EndTime(now, fill), token.sub, last, sid);
    var e := LogIn(s'.store.users[token.sub], last, sid);
    Extend(cfg, s, now, fill, [e]);
    all := ThenUse(cfg, s, now, token, fill + [e], last);
  }

  lemma BySibling(cfg: Config, s: Svc, now: Time, token: Token, other: Token) returns (all: seq<Event>)
    requires cfg.backend.Memory? && Sound(cfg, s, now) && Sibling(s.store, now, token, other)
    requires Unix(now) == IssuedSecond(token)
    ensures UsedAgain(cfg, s, now, token, all)
  {
    hide Uses, Live;
    TokenOfSecond(token, now);
    var sid := FreshString(s.store.sessions.Keys);
    LiveIsUsable(cfg, s, now, other, now, sid);
    all := ThenUse(cfg, s, now, token, [Again(other, now, sid)], now);
  }

  // ---------- exactly ----------

  /** A revoked token of a sound state is dead for ever exactly when it cannot be issued again. */
  lemma RevokedReturnsExactly(cfg: Config, s: Svc, now: Time, token: Token)
    requires Sound(cfg, s, now)
    requires GetSessionByTokenHash(s.store, Sha256(token)).Success? && !Live(s.store, token)
    ensures token.Signed?
    ensures NeverUsedAgain(cfg, s, now, token) <==> !CanReissue(cfg, s, now, token)
  {
    Lookups(cfg.backend, s.store, now, "", Sha256(token));
    if CanReissue(cfg, s, now, token) {
      var all: seq<Event>;
      if CanPass(cfg, s.pool, s.store.users[token.sub].email, LastInstant(IssuedSecond(token))) {
        all := ByLogin(cfg, s, now, token);
      } else {
        var other :| Sibling(s.store, now, token, other);
        all := BySibling(cfg, s, now, token, other);
      }
      assert UsedAgain(cfg, s, now, token, all);
    } else {
      assert Blocked(cfg, s, now, token);
      forall events | Legal(cfg, s, now, events) ensures Uses(cfg, s, events, token) == 0 {
        BlockedNeverUsed(cfg, s, now, events, token);
      }
    }
  }

  lemma StartSound(cfg: Config, now: Time)
    ensures Sound(cfg, START, now)
  {
  }

  /** Logging a token out that has a session leaves the session revoked. */
  lemma LogoutRevokes(cfg: Config, s: Svc, now: Time, op: Op, mode: CacheMode)
    requires op.Logout? && StoreOk(cfg.backend, s.store, now)
    requires GetSessionByTokenHash(s.store, Sha256(op.token)).Success?
    ensures var after := Step(cfg, s, op, mode).0;
            GetSessionByTokenHash(after.store, Sha256(op.token)).Success? && !Live(after.store, op.token)
  {
    Lookups(cfg.backend, s.store, now, "", Sha256(op.token));
  }

  /**
   * Logout exactly: in every serial run, after the logout of a token that has a session,
   * no continuation uses the token if and only if it cannot be issued again: its issue
   * second is over, or the store is the table, or within that second the limiter admits
   * no Login of the user and the user has no other token to refresh.
   */
  lemma LogoutKillsExactly(cfg: Config, now: Time, pre: seq<Event>, op: Op, mode: CacheMode)
    requires Legal(cfg, START, now, pre) && op.Logout? && ClockOk(EndTime(now, pre), op)
    requires GetSessionByTokenHash(Run(cfg, START, pre).store, Sha256(op.token)).Success?
    ensures var after := Step(cfg, Run(cfg, START, pre), op, mode).0;
            NeverUsedAgain(cfg, after, op.revokeAt, op.token) <==> !CanReissue(cfg, after, op.revokeAt, op.token)
  {
    hide NeverUsedAgain, CanReissue, Step;
    StartSound(cfg, now);
    RunOk(cfg, START, now, pre);
    RunGateOk(cfg, START, now, pre);
    var s, t := Run(cfg, START, pre), EndTime(now, pre);
    StepOk(cfg, s, t, op, mode);
    StepGateOk(cfg, s, t, op, mode);
    LogoutRevokes(cfg, s, t, op, mode);
    RevokedReturnsExactly(cfg, Step(cfg, s, op, mode).0, op.revokeAt, op.token);
  }

  // ---------- a concrete run in which a logged-out token refreshes ----------

  function ReuseRun(): seq<Event> {
    [Event(Register("e", "u", "p", true, true, 0, "id", 0), NoCache),
     Event(Login("e", "p", 0, 0, 0, 0, 0, true, "s1"), NoCache),
     Event(Logout(Signed("id", REFRESH_SECONDS), 0, 0), NoCache),
     Event(Login("e", "p", 0, 0, 0, 0, 0, true, "s2"), NoCache),
     Event(Refresh(Signed("id", REFRESH_SECONDS), 0, 0, 0, 0, 0, 0, true, "s3"), NoCache)]
  }

  /** A Login of the sample user at instant 0 that its limiter admits. */
  lemma SampleReLogin(s: Svc, sid: Id, token: Token)
    requires token == Signed("id", REFRESH_SECONDS) && sid !in s.store.sessions
    requires GetUserByEmail(s.store, "e") == Success(User("id", "e", "u", Bcrypt("p", 0), 0, 0))
    requires Admits(SAMPLE, s.pool, "e", 0)
    ensures var (after, r) := Step(SAMPLE, s, Login("e", "p", 0, 0, 0, 0, 0, true, sid), NoCache);
            && after.store == CreateSession(s.store, NewSession(sid, "id", token, 0))
            && after.pool == R.Pass(SAMPLE.pool, s.pool, "e", SAMPLE.rate, 0, 0).0
  {
    hide R.Pass;
    assert Generate("id", 0, 0).1 == token;
  }

  /** The sample limiter admits two Logins at once. */
  lemma SampleAdmits()
    ensures Admits(SAMPLE, map[], "e", 0)
    ensures Admits(SAMPLE, R.Pass(SAMPLE.pool, map[], "e", SAMPLE.rate, 0, 0).0, "e", 0)
  {
  }

  /** One more event in front of a run. */
  lemma Cons(cfg: Config, s: Svc, now: Time, e: Event, rest: seq<Event>, token: Token)
    requires ClockOk(now, e.op) && IdsFresh(s.store, e.op) && !e.op.Cleanup?
    requires Legal(cfg, Step(cfg, s, e.op, e.mode).0, TimeAfter(now, e.op), rest)
    ensures Legal(cfg, s, now, [e] + rest)
    ensures Uses(cfg, s, [e] + rest, token)
            == (if Used(e.op, Step(cfg, s, e.op, e.mode).1, token) then 1 else 0)
               + Uses(cfg, Step(cfg, s, e.op, e.mode).0, rest, token)
  {
    hide Step;
    assert ([e] + rest)[1..] == rest;
  }

  /** Logged in, out and in again within one second: the logged-out string is accepted. */
  lemma LogoutThenReuse()
    ensures Legal(SAMPLE, START, 0, ReuseRun())
    ensures Uses(SAMPLE, START, ReuseRun(), Signed("id", REFRESH_SECONDS)) == 1
  {
    hide Step, Legal, Uses;
    var token := Signed("id", REFRESH_SECONDS);
    var e := ReuseRun();
    var s1 := Step(SAMPLE, START, e[0].op, e[0].mode).0;
    var s2 := Step(SAMPLE, s1, e[1].op, e[1].mode).0;
    var s3 := Step(SAMPLE, s2, e[2].op, e[2].mode).0;
    var s4 := Step(SAMPLE, s3, e[3].op, e[3].mode).0;
    SampleStates(s1, s2, s3, token);
    SampleReLogin(s3, "s2", token);
    SampleRefresh(s4, "s2", token, "s3");
    Nothing(Step(SAMPLE, s4, e[4].op, e[4].mode).0, token);
    Cons(SAMPLE, s4, 0, e[4], [], token);
    Cons(SAMPLE, s3, 0, e[3], [e[4]] + [], token);
    Cons(SAMPLE, s2, 0, e[2], [e[3]] + ([e[4]] + []), token);
    Cons(SAMPLE, s1, 0, e[1], [e[2]] + ([e[3]] + ([e[4]] + [])), token);
    Cons(SAMPLE, START, 0, e[0], [e[1]] + ([e[2]] + ([e[3]] + ([e[4]] + []))), token);
    assert e == [e[0]] + ([e[1]] + ([e[2]] + ([e[3]] + ([e[4]] + []))));
  }

  lemma Nothing(s: Svc, token: Token)
    ensures Legal(SAMPLE, s, 0, []) && Uses(SAMPLE, s, [], token) == 0
  {
  }

  /** Registered, logged in, logged out. */
  lemma SampleStates(s1: Svc, s2: Svc, s3: Svc, token: Token)
    requires token == Signed("id", REFRESH_SECONDS)
    requires s1 == Step(SAMPLE, START, ReuseRun()[0].op, NoCache).0
    requires s2 == Step(SAMPLE, s1, ReuseRun()[1].op, NoCache).0
    requires s3 == Step(SAMPLE, s2, ReuseRun()[2].op, NoCache).0
    ensures s1.store.sessions == map[] && s2.store.sessions.Keys == {"s1"} == s3.store.sessions.Keys
    ensures GetUserByEmail(s3.store, "e") == Success(User("id", "e", "u", Bcrypt("p", 0), 0, 0))
    ensures Admits(SAMPLE, s3.pool, "e", 0)
    ensures s3.store.byToken == map[Sha256(token) := "s1"]
  {
    hide R.Pass;
    SampleAdmits();
    assert s1.pool == map[] && GetUserByEmail(s1.store, "e") == Success(User("id", "e", "u", Bcrypt("p", 0), 0, 0));
    SampleReLogin(s1, "s1", token);
  }
}
