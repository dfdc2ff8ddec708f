# Verification of the user platform

A Dafny model of the stateful core of the user platform, with proofs about every run of
it: the user service with its sessions, tokens, login limiter and cache; the gateway's
audit pipeline of Kafka consumer, worker pool and SSE hub; the paged user list; the retry
helper; and the error encoding. `dafny verify dfyconfig.toml` checks all of it.

## How the model is laid out

| file | what it holds |
|---|---|
| `Clock.dfy`, `Wrappers.dfy` | time in nanoseconds, Option and Result |
| `RateLimiter.dfy` | token buckets and the limiter pool, as values and as objects with the in-place sweep |
| `LimiterProofs.dfy`, `RateLaw.dfy`, `LoginGate.dfy` | the pool against one immortal bucket per email; which calls are refused, from times and answers alone; both inside the service |
| `Tokens.dfy` | access and refresh tokens |
| `Repository.dfy`, `RepositoryLog.dfy` | the in-memory repository as values and as a class; its indexes against scans of the call log |
| `UserService.dfy` | the five operations and session cleanup as one step function; serial runs |
| `UserServiceClass.dfy` | the service as an object updated in place, each method proved to be one step |
| `RowEffects.dfy` | what each operation leaves in the tables, field by field |
| `SessionProofs.dfy`, `OneUse.dfy`, `Revocation.dfy`, `Families.dfy` | invariants of users and sessions, one use of a refresh token, when a revoked one comes back, rotation families |
| `CleanupProofs.dfy`, `CacheProofs.dfy`, `CacheInterleaving.dfy` | cleanup and cache cannot be observed; the cache under interleaving |
| `ServiceSpec.dfy`, `Correspondence.dfy`, `RefinementSteps.dfy`, `Refinement.dfy` | what the service is for, as accounts, live tokens and immortal buckets; the whole service gives exactly its responses |
| `Hub.dfy`, `HubProtocol.dfy`, `Delivery.dfy` | the SSE hub as an object, step by step under its lock, and what any number of publishers deliver |
| `WorkerPool.dfy`, `PipelineSteps.dfy`, `Pipeline.dfy`, `AuditConsumer.dfy` | the worker pool, its composition with consumer and hub, and both as objects |
| `Keyset.dfy`, `Retry.dfy`, `Errors.dfy` | paging, backoff, error statuses |

The central result on the user service is `ServiceRefinesSpec`: in every serial run, on the
in-memory maps or on the session table, with any behaviour of the cache, limiter eviction
and cleanups at any points, each response is the one given by a specification that has
only a set of accounts, the live refresh tokens and one never-evicted bucket per email.

Code that changes state in place appears twice: as a class or method with loops, and as a
function on values which the class is proved to follow. The properties of runs are proved
about the functions.

## What is assumed

- A signed token is the pair of subject and expiry second. `Generate` signs only those
  two claims with a deterministic signature (RS256, section 3.3 of RFC 7518 and section
  8.2 of RFC 8017), so equal pairs are equal strings. SHA-256 of a token is injective.
- A password hash matches exactly the password it was made from. The repository's README
  speaks of Argon2id; the code uses bcrypt.
- The clock never runs backwards, and every reading of it is an input of the operation.
  `uuid.New` returns an id no row has.
- `rate.Limiter` is an exact integer bucket: a token costs `interval` units of credit and
  credit grows by one unit per unit of time. A refusal spends nothing. `Get` and `Allow`
  each read the clock; the second reading follows the first by at most a bound `lag`.
- Validation, password hashing, signing failures, the cache's answers and losses, the
  outcome of calls in the retry loop, and fetched messages are inputs.
- The concurrent parts are interleavings of atomic steps: one step per lock operation,
  channel operation and counter operation, and one send per client in `Publish`.

## What turned out to need a condition

- **A refreshed token can come back.** A refresh within the second in which its token was
  issued returns the same string, backed by a new session, so "rotated" tokens stay usable
  (`SameSecondReuse`). `RefreshKillsExactly` gives the condition both ways: the presented
  token is dead for ever unless the refresh re-issues in the token's issue second and the
  token has not expired; the strings are equal exactly in that second. On
  the session table the second row with that hash is refused instead.
- **A logged-out token can come back too.** Logged in, out and in again within one second,
  the logged-out string is accepted (`LogoutThenReuse`). `LogoutKillsExactly` gives the
  condition both ways: no continuation uses the token unless its issue second is not over,
  the store is the in-memory one, and within that second either the limiter can still admit
  a Login of that user or the user has another live token to refresh.
- **The limiter pool is not capped at maxKeys**, although a comment in the code says that
  it keeps the hottest keys: an inserting Get exceeds it exactly when that many entries are
  unexpired (`GetExceedsExactly`), and within one ttl the pool grows with the number of
  emails (`PoolGrowsWithoutBound`).
- **Eviction is unobservable exactly when the ttl outlasts the refill.** With both clock
  readings equal the condition is burst * interval <= ttl + 1 (in nanoseconds); with a gap
  between them it is `TtlCovers`. `EvictionUnobservableExactly` proves it necessary and
  sufficient; the service's ten minutes satisfy it for gaps up to 599.8 s.
- **Shutdown can meet a sender.** `Close` waits for the counter only, so a message that the
  consumer loop has fetched but not yet counted is sent on the closed channel
  (`CloseCanMeetTheLoop`). At whatever point `Wait` returns, a panic can still follow if and
  only if the loop has not stopped (`ShutdownPanicsExactly`); if the Kafka client returns
  nothing once its context has ended, if and only if the loop stands between fetching and
  counting (`ShutdownPanicsWithoutFetchExactly`). For the pool alone: no panic if every
  `Submit` counts before `Wait` returns (`CloseMeetsNoSender`), and one later submit is
  enough (`LateSubmitCanPanic`).
- **A shared "not found" for an email can be stale** (`SharedMissCanBeStale`): exactly when
  the caller joins a flight whose read came before the registration (`MissIsStaleExactly`).
  By id it never is (`NoFalseMissById`), and a returned row never is in the fields the API
  shows.
- **An access token is at times also a refresh token**: the same string as the refresh token
  issued to that user seven days less fifteen minutes before (`AccessCollidesWithRefresh`).
  RefreshSession accepts it only if that refresh token was indeed handed out
  (`AccessTokenRefreshesAsRefreshTokenOnly`).
- **The 38th backoff wait does not wait**: 2^37 * 100 ms overflows a 64-bit duration and
  wraps to a negative one (`RoundThirtyEightDoesNotWait`, `WaitIsExact`).
- **nil from the retry helper** also covers `attempts <= 0`, where nothing is called
  (`NilMeansSuccess`).
- **An empty code** comes back as the internal code; every other code comes back itself
  (`RoundTrip`).
- **A weak password** answers 400 through its status, while the table from codes to HTTP
  statuses says 500; on every other code the two agree (`TablesAgreeExactly`).
- **Paging by timestamp alone loses rows**: without an id the query skips all rows that
  share the cursor's timestamp (`TimestampAloneSkipsTies`).
- **A page limit of zero** never finishes a scan (`ZeroLimitNeverEnds`), and a pool with
  no workers never shuts down once something was submitted (`NoWorkersNoProgress`).

## Model

| member | source | states |
|---|---|---|
| `RateLimiter.GetBoundsOrCleans` | internal/user/service/service.go:405-423 | after an inserting Get the map holds at most maxKeys entries or nothing expired |
| `RateLimiter.GetExceedsExactly` | internal/user/service/service.go:412-421 | an inserting Get leaves more than maxKeys entries if and only if at least maxKeys are unexpired |
| `RateLimiter.PoolGrowsWithoutBound` | internal/user/service/service.go:405-423 | for every n and maxKeys, first Logins of n emails at one instant leave n entries |
| `RateLimiter.SweepExact` | internal/user/service/service.go:412-419 | a sweep removes exactly the entries past their expiry and changes no other |
| `RateLimiter.Limiter.AllowAt` | internal/user/service/service.go:181 | one Allow on the shared limiter object is one step of the exact bucket, also when the clock reads earlier than before |
| `RateLimiter.LimiterPool.constructor` | internal/user/service/service.go:395-401 | a new pool has no entries |
| `RateLimiter.LimiterPool.DeleteExpired` | internal/user/service/service.go:414-418 | the deletion loop, in any order of keys, leaves exactly the unexpired items |
| `RateLimiter.LimiterPool.Insert` | internal/user/service/service.go:420-422 | a new limiter starts full, expires ttl later, and shares nothing with the others |
| `RateLimiter.LimiterPool.Ask` | internal/user/service/service.go:180-184 | asking the limiter of one key changes that key's bucket and no other |
| `RateLimiter.LimiterPool.GetLimiter` | internal/user/service/service.go:405-423 | touch, or sweep when full and insert; the returned limiter is the one stored under the key |
| `RateLimiter.LimiterPool.Put` | internal/user/service/service.go:421 | storing an item nobody else has changes that key's entry and no other |
| `LimiterProofs.FullByExpiry` | internal/user/service/service.go:405-423 | under the ttl condition a bucket used once is full again whenever its entry can be swept |
| `LimiterProofs.EvictionUnobservable` | internal/user/service/service.go:405-423 | in every serial run, for every maxKeys, the pool's answers equal those of one never-evicted bucket per email |
| `LimiterProofs.EvictionObservable` | internal/user/service/service.go:405-423 | when the ttl condition fails, a concrete run gets different answers from the pool |
| `LimiterProofs.EvictionUnobservableExactly` | internal/user/service/service.go:405-423 | no run of any pool size sees eviction if and only if the ttl condition holds |
| `LimiterProofs.PassedWithinBudget` | internal/user/service/service.go:180-184 | what an immortal bucket lets through in a window is paid for by its level and the window's length |
| `LimiterProofs.RateBound` | internal/user/service/service.go:180-184 | for any email and window of length T at most burst + floor(T / interval) calls pass, through every eviction and re-creation |
| `LimiterProofs.LoginTtlCovers` | internal/user/service/service.go:180 | the service's numbers meet the ttl condition exactly for gaps up to 599.8 s between the two clock readings |
| `RateLaw.RefusedExactly` | internal/user/service/service.go:180-184 | in every run of the pool a call is refused if and only if, for some earlier instant, the calls for its email passed since then and this one need more than a full burst plus the refill since |
| `RateLaw.RefusalCostsNothing` | internal/user/service/service.go:181-184 | a refused call changes the bucket's level at no later instant |
| `RateLaw.TenThenOneEach200ms` | internal/user/service/service.go:180-184 | ten Logins of an email pass at once, an eleventh within 200 ms is refused, and one 200 ms after the ten passes all the same |
| `LoginGate.AnswersAreDecisions` | internal/user/service/service.go:176-219 | in every service run, Login answers "rate limited" exactly where the limiter pool refuses |
| `LoginGate.GateIsImmortal` | internal/user/service/service.go:176-184 | in every service run the limiter refuses exactly the Logins one immortal bucket per email would refuse |
| `LoginGate.LoginRateBound` | internal/user/service/service.go:176-184 | in every service run and window at most burst + floor(T / interval) Logins of an email get past the limiter |
| `LoginGate.LoginRefusedExactly` | internal/user/service/service.go:176-184 | in every service run a Login is rate limited if and only if the earlier Logins of its email that got past the limiter exhausted burst and refill |
| `Tokens.RefreshTokenSecond` | pkg/auth/jwt.go:53-56 | a refresh token determines its issue second, and expires within a second before issue plus seven days |
| `Tokens.RefreshTokensCollide` | pkg/auth/jwt.go:47-66 | two refresh tokens are one string exactly when subject and issue second agree |
| `Tokens.AccessCollidesWithRefresh` | pkg/auth/jwt.go:49-56 | an access token is the string of exactly those refresh tokens of its subject issued seven days less fifteen minutes earlier |
| `Tokens.VerifyGenerated` | pkg/auth/jwt.go:47-92 | a refresh token verifies for its own subject for exactly 604,800 seconds from its issue second, an access token for 900 |
| `Tokens.OnlySignedVerifies` | pkg/auth/jwt.go:69-92 | a string verifies for a subject if and only if it is a signed token of that subject whose expiry instant is ahead |
| `Repository.InMemoryRepo.CreateUserRow` | internal/user/repo/memory.go:43-54 | refuses a taken email and changes nothing, else stores row and index entry |
| `Repository.InMemoryRepo.FindUserByEmail` | internal/user/repo/memory.go:56-65 | index lookup, then row; a dangling index entry would yield the zero row |
| `Repository.InMemoryRepo.FindUserByID` | internal/user/repo/memory.go:67-76 | the stored row or not found |
| `Repository.InMemoryRepo.CreateSessionRow` | internal/user/repo/memory.go:80-88 | stores the row and points the hash at it, replacing an older entry |
| `Repository.InMemoryRepo.RevokeSessionRow` | internal/user/repo/memory.go:90-102 | stamps the revocation time of an existing row and nothing else |
| `Repository.InMemoryRepo.FindSessionByTokenHash` | internal/user/repo/memory.go:104-113 | index lookup, then row |
| `RepositoryLog.EmailLookupIsScan` | internal/user/repo/memory.go:43-65 | under any interleaving of calls, lookup by email equals a scan of the log for the first row with that email |
| `RepositoryLog.EmailIndexAgrees` | internal/user/repo/memory.go:43-76 | lookup by email finds a row exactly when lookup by its id does and the email fits |
| `RepositoryLog.SucceedsIffFirst` | internal/user/repo/memory.go:43-54 | a creation succeeds exactly when it is the first with its email |
| `RepositoryLog.OneCreationPerEmail` | internal/user/repo/memory.go:43-54 | at most one creation per email ever succeeds |
| `RepositoryLog.RegistrationIsFinal` | internal/user/repo/memory.go:43-76 | a created user is found unchanged under both keys whatever calls follow |
| `RepositoryLog.TokenLookupIsLatest` | internal/user/repo/memory.go:80-113 | lookup by hash returns the latest-created session with that hash, as last revoked |
| `RepositoryLog.RevokedStaysRevoked` | internal/user/repo/memory.go:80-102 | a revoked session stays revoked whatever calls follow |
| `UserServiceClass.Service.constructor` | internal/user/service/service.go:395-401 | a new service is the empty starting state |
| `UserServiceClass.Service.UserByEmailCached` | internal/user/service/service.go:314-347 | always answers from the repository and writes both cache keys, each write subject to loss |
| `UserServiceClass.Service.UserByIDCached` | internal/user/service/service.go:349-379 | answers from the cache when it can, else from the repository, writing both keys |
| `UserServiceClass.Service.AddUser` | internal/user/service/service.go:131-173 | Register touches repository and cache only, and does to them what the Register step says for any limiter pool |
| `UserServiceClass.Service.RegisterUser` | internal/user/service/service.go:131-173 | the method in place is the Register step: same response, repository, cache and limiter state |
| `UserServiceClass.Service.PassGate` | internal/user/service/service.go:180-184 | fetching and asking the limiter is one call of the pool model |
| `UserServiceClass.Service.OpenSession` | internal/user/service/service.go:186-218 | Login behind the gate is the Authenticate step, leaving no session on any refusal |
| `UserServiceClass.Service.LoginUser` | internal/user/service/service.go:176-219 | the method in place is the Login step |
| `UserServiceClass.Service.Profile` | internal/user/service/service.go:222-236 | the method in place is the GetProfile step |
| `UserServiceClass.Service.CheckRefresh` | internal/user/service/service.go:242-259 | a session passes the guards exactly when the token verifies and its session is found, not revoked and not expired |
| `UserServiceClass.Service.Rotate` | internal/user/service/service.go:239-292 | guards, revoke, sign and store in the source's order, with the state each failure leaves |
| `UserServiceClass.Service.RefreshSession` | internal/user/service/service.go:239-292 | the method in place is the Refresh step, including the failures after the revoke |
| `UserServiceClass.Service.LogoutUser` | internal/user/service/service.go:295-310 | the method in place is the Logout step, which always reports success |
| `SessionProofs.StepOk` | internal/user/service/service.go:131-310 | every operation keeps the invariant of users, sessions and both indexes |
| `SessionProofs.RunOk` | internal/user/service/service.go:131-310 | every serial run keeps the invariant, hence every reachable state has it |
| `SessionProofs.TokenSessionAgreement` | internal/user/service/service.go:195-259 | a session found by a token's hash belongs to the token's subject, that user exists, and the token expires no later than the session; so at an instant at which Verify accepts, only a revocation can refuse |
| `SessionProofs.RefreshKeepsUser` | internal/user/service/service.go:239-292 | a refresh issues both tokens and the new session for the presented token's own user, and the new token finds that session, unrevoked |
| `RowEffects.RegisterAddsOneRow` | internal/user/service/service.go:150-164 | a successful Register adds exactly one row, with both stamps the same instant and the password's own hash, under both keys |
| `RowEffects.LoginAddsOneSession` | internal/user/service/service.go:186-218 | a successful Login adds exactly one unrevoked session of seven days for the user of that email and returns its pair of tokens |
| `RowEffects.FailedLoginLeavesRows` | internal/user/service/service.go:176-214 | a Login that fails leaves every row as it was |
| `RowEffects.RefreshStampsAndAdds` | internal/user/service/service.go:251-291 | past its guards a refresh stamps the presented session whatever follows; only a successful one adds a session, and nothing else moves |
| `RowEffects.LogoutStamps` | internal/user/service/service.go:303-307 | Logout stamps the session its token finds, even one stamped before, and nothing else |
| `RowEffects.CleanupDeletesExactly` | internal/user/sqlc/gen/user.sql.go:14-24 | a session row is gone after Cleanup if and only if it was revoked and expired more than 604,800 seconds before; other rows and their index entries stay, a deleted row's hash finds nothing |
| `RowEffects.CleanupAfterAnyRun` | internal/user/sqlc/gen/user.sql.go:14-24 | the same of the store that any serial run on the table reaches |
| `OneUse.LiveStep` | internal/user/service/service.go:176-310 | per operation, uses plus live sessions of a token never exceed live sessions before plus issues |
| `OneUse.OneUsePerIssue` | internal/user/service/service.go:239-292 | in every serial run a refresh token is used at most as often as it was handed out |
| `OneUse.SpentForever` | internal/user/service/service.go:239-310 | once not live and past its issue second, every later refresh of the token is refused, whatever follows |
| `OneUse.OneUseAfterRevocation` | internal/user/service/service.go:239-310 | after a refresh or logout revoked the session in a later second than issue, no later refresh of that token succeeds; revocations within the issue second are decided by RefreshKillsExactly and LogoutKillsExactly |
| `OneUse.RefreshKillsExactly` | internal/user/service/service.go:239-292 | a successful refresh ends its token's use for ever if and only if it does not re-issue in the token's own issue second while the token is alive; it returns the same string exactly in that second |
| `OneUse.SameTokenUsable` | internal/user/service/service.go:267-291 | a token string returned by its own refresh can be refreshed again at once |
| `OneUse.SameSecondReuse` | internal/user/service/service.go:239-292 | a concrete legal run uses one refresh token string twice |
| `OneUse.AccessTokenRefreshesAsRefreshTokenOnly` | internal/user/service/service.go:239-292 | an access token that refreshes was handed out before as a refresh token, in the second its string encodes |
| `Revocation.BlockedStep` | internal/user/service/service.go:176-310 | a revoked token whose user is shut out of its issue second stays so through every operation |
| `Revocation.Evict` | internal/user/service/service.go:411-419 | an expired limiter entry can always be made to go by Logins of new emails, which change nothing else |
| `Revocation.RevokedReturnsExactly` | internal/user/service/service.go:176-310 | a revoked token is used by no continuation if and only if it cannot be issued again within its issue second |
| `Revocation.LogoutKillsExactly` | internal/user/service/service.go:295-310 | in every serial run, a logged-out token is dead for ever if and only if its second is over, or the table holds it, or neither a Login of its user nor another of the user's tokens can re-issue it in that second |
| `Revocation.LogoutThenReuse` | internal/user/service/service.go:176-310 | a concrete legal run refreshes a logged-out token string |
| `Families.TagsAreGhost` | internal/user/service/service.go:176-310 | tagging sessions with their login never changes the service's state |
| `Families.OneLivePerFamily` | internal/user/service/service.go:201-215 | every chain of refreshes has at most one unrevoked session in every reachable state, on either backend and with cleanups anywhere |
| `Families.UnrevokedIsConserved` | internal/user/service/service.go:261-309 | unrevoked sessions = logins - logouts of unrevoked sessions - refreshes that failed after their revoke, on either backend |
| `CleanupProofs.CleanSimulates` | internal/user/sqlc/gen/user.sql.go:14-24 | cleanup removes only index entries of tokens that already fail verification |
| `CleanupProofs.StoreSimulates` | internal/user/service/service.go:274-288 | a token issued now never has the hash of a row that cleanup removed, so the unique index accepts or refuses it alike |
| `CleanupProofs.StepAlike` | internal/user/service/service.go:131-310 | an operation answers alike on the cleaned and the uncleaned store and keeps them related |
| `CleanupProofs.CleanupIsInvisible` | internal/user/sqlc/gen/user.sql.go:14-24 | cleanups inserted at any points of a serial run change no response |
| `CacheProofs.ViewLosesHashAndFractions` | internal/user/service/service.go:59-78 | a row read back from its cached view equals the row exactly when it has no hash and whole-second times; id, email and username always survive |
| `CacheProofs.KeysApart` | internal/user/service/service.go:127-128 | the email key and the id key of the cache never collide and are injective |
| `CacheProofs.StepTransparent` | internal/user/service/service.go:314-379 | with a truthful cache an operation gives the response, store and limiter state it gives with none |
| `CacheProofs.CacheIsTransparent` | internal/user/grpc/server.go:21-70 | in every serial run all gRPC responses equal those without a cache, whatever it hits, misses, expires or loses |
| `CacheProofs.ReadsFillTheCache` | internal/user/service/service.go:328-342 | a lookup by email leaves the row's view under both keys and touches no other entry |
| `CacheProofs.MissFillsTheCache` | internal/user/service/service.go:361-374 | so does a lookup by id that the cache does not answer |
| `CacheProofs.HitAsksNobody` | internal/user/service/service.go:351-358 | a hit by id is answered from the cached view, whatever the repository holds |
| `CacheProofs.RegisterForgets` | internal/user/service/service.go:166-169 | a registration whose Del reaches the cache leaves neither of the user's keys in it |
| `CacheInterleaving.EveryAnswerIsTheStoredRow` | internal/user/service/service.go:349-379 | with reads, cache writes, shared flights and expiry interleaved, a row returned by id shows the stored row's id, email and username, and one returned by email is the stored row |
| `CacheInterleaving.NoFalseMissById` | internal/user/service/service.go:361-378 | under every interleaving an id reported unknown belongs to no user, then or later |
| `CacheInterleaving.FlightStands` | internal/user/service/service.go:328-342 | while a flight is in the air its result stands, and the email becomes taken exactly if a registration of it comes |
| `CacheInterleaving.MissIsStaleExactly` | internal/user/service/service.go:328-346 | what a caller gets from a shared read differs from what the repository says now if and only if an email was unknown to the read and registered since |
| `CacheInterleaving.SharedMissCanBeStale` | internal/user/service/service.go:328-346 | a lookup by email that joins the flight which a registration's own check started is told "not found" after the user was stored |
| `Correspondence.FindByEmail` | internal/user/service/service.go:186-193 | lookup by email through index and row finds exactly the registered account with that email, with its id and password |
| `Correspondence.IssueAgrees` | internal/user/service/service.go:195-215 | storing the session of a generated token makes exactly that token live, or is refused by the table exactly when that token was issued before |
| `Correspondence.RevokeAgrees` | internal/user/service/service.go:261-265 | revoking the session a token finds takes exactly that token out of the live ones |
| `Correspondence.CleanupAgrees` | internal/user/sqlc/gen/user.sql.go:14-24 | cleanup removes no live token and no issued one that could still be accepted |
| `Refinement.StepRefines` | internal/user/service/service.go:131-310 | each operation, with any cache, answers as specified and leaves a state that stands for the specified one |
| `Refinement.ServiceRefinesSpec` | internal/user/service/service.go:131-423 | in every serial run each response is that of a specification with accounts, live tokens and one immortal bucket per email, with no rows, indexes, cache, eviction or cleanup |
| `Hub.Hub.Subscribe` | pkg/sse/hub.go:22-28 | adds one fresh empty channel |
| `Hub.Hub.Unsubscribe` | pkg/sse/hub.go:31-38 | closes a registered channel once and removes it; another channel is left alone |
| `Hub.Hub.Publish` | pkg/sse/hub.go:41-51 | in any map order, the event is appended to the buffer of each client with fewer than ten unread and a client with ten keeps what it has; no client is added, removed or closed |
| `HubProtocol.StepSafe` | pkg/sse/hub.go:22-51 | every step under the lock keeps registered channels open, buffers bounded and publishers within the client set |
| `HubProtocol.NeverPanics` | pkg/sse/hub.go:22-51 | under every interleaving no send meets a closed channel, no channel is closed twice, no buffer exceeds ten |
| `HubProtocol.ClosedExactlyWhenLeft` | pkg/sse/hub.go:31-38 | a channel that joined is closed if and only if its client has left |
| `HubProtocol.KeptExactly` | pkg/sse/hub.go:22-51 | in every reachable state an attempt was kept if and only if fewer than ten kept events were unread at its moment |
| `HubProtocol.NextSendKeepsExactly` | pkg/sse/hub.go:43-49 | the next send at any reachable state is kept by the same rule and changes that client's channel only |
| `HubProtocol.AllDeliveredExactly` | pkg/sse/hub.go:22-51 | with one publisher a registered client has all events since its Subscribe if and only if it never had ten unread when one was sent |
| `HubProtocol.PublishersShare` | pkg/sse/hub.go:41-51 | while nobody writes, a further publisher can always start beside the others and reach every client |
| `HubProtocol.AttemptsAreAccounted` | pkg/sse/hub.go:41-51 | send attempts = received + buffered + dropped, and what was kept is an in-order subsequence of what was attempted |
| `HubProtocol.DeliveryWithOnePublisher` | pkg/sse/hub.go:22-51 | with one publisher a client was offered exactly the events since its Subscribe; it has them all if none was dropped |
| `HubProtocol.LeaversGotAPrefix` | pkg/sse/hub.go:31-38 | with one publisher, a client that left was offered a prefix of the events since its Subscribe |
| `HubProtocol.IterationOrderIrrelevant` | pkg/sse/hub.go:43-49 | two publishes of one event over the same clients in different orders leave the same state |
| `Delivery.StepBalanced` | pkg/sse/hub.go:22-51 | every step keeps, for each client, offered + still owed = published since it joined, counted with multiplicity |
| `Delivery.OfferedExactlyWhatWasPublished` | pkg/sse/hub.go:22-51 | with any number of publishers, once none is under way a registered client was offered every event since its Subscribe as often as it was published; a client that left, nothing else |
| `WorkerPool.StepConserves` | pkg/concurrency/concurrency.go:32-53 | every step keeps counter, totals, queue order and bound; it panics exactly when a send meets the closed channel |
| `WorkerPool.PoolConservation` | pkg/concurrency/concurrency.go:32-53 | in every reachable state the counter is senders + queued + in worker, no task is lost or doubled, queue <= 2w, busy <= w, tasks are taken in queue order |
| `WorkerPool.SubmitBlocksExactly` | pkg/concurrency/concurrency.go:25-47 | before the close a counted submitter is held up if and only if exactly 2w tasks are queued |
| `WorkerPool.WaitMeansAllHandled` | pkg/concurrency/concurrency.go:50-53 | when Wait can return every submitted task was handled exactly once and all workers are idle |
| `WorkerPool.CloseMeetsNoSender` | pkg/concurrency/concurrency.go:44-53 | if every Submit counts before Wait returns, no send meets the closed channel |
| `WorkerPool.LateSubmitCanPanic` | pkg/concurrency/concurrency.go:44-53 | from every state past Wait, one more Submit can be scheduled into a panic |
| `WorkerPool.NextStep` | pkg/concurrency/concurrency.go:32-47 | with a worker and a positive counter some step of the pool is enabled |
| `WorkerPool.InternalStepCounts` | pkg/concurrency/concurrency.go:32-47 | every such step lowers the weighted work left by exactly one |
| `WorkerPool.ShutdownReturns` | pkg/concurrency/concurrency.go:50-53 | with a worker and no new Submit every schedule is finite, and one that cannot go on lets Wait return |
| `WorkerPool.NoWorkersNoProgress` | pkg/concurrency/concurrency.go:22-53 | with no worker and a positive counter Wait never returns |
| `AuditConsumer.WorkerPoolObject.constructor` | pkg/concurrency/concurrency.go:22-30 | a new pool is the model's starting state |
| `AuditConsumer.WorkerPoolObject.WorkerStep` | pkg/concurrency/concurrency.go:34-39 | whichever worker that can move is picked, the work left drops by one and nothing submitted or queued changes |
| `AuditConsumer.WorkerPoolObject.Submit` | pkg/concurrency/concurrency.go:44-47 | a Submit that blocks on a full channel ends and queues exactly its task, last |
| `AuditConsumer.WorkerPoolObject.Shutdown` | pkg/concurrency/concurrency.go:50-53 | returns, with every submitted task handled exactly once and the channel closed |
| `AuditConsumer.Consumer.Start` | pkg/kafka/consumer.go:32-44 | everything fetched is queued and committed in fetch order |
| `AuditConsumer.Consumer.Close` | pkg/kafka/consumer.go:47-50 | after the loop has ended, every fetched message has been handled exactly once |
| `PipelineSteps.ConsumerStep` | pkg/kafka/consumer.go:33-43 | every step of the composed system keeps commit, queue and fetch histories aligned |
| `Pipeline.CommitAfterQueueInOrder` | pkg/kafka/consumer.go:33-43 | commits and queued tasks are prefixes of the fetched messages, commits <= queued <= commits + 1, tasks are taken in order, at most w unfinished |
| `PipelineSteps.OnceStep` | internal/gateway/service/server.go:49-58 | every step keeps each message with at most one worker and one publish, which has not yet passed the clients still to be sent to |
| `Pipeline.AtMostOncePerClient` | internal/gateway/service/server.go:49-58 | what a client received and has buffered are distinct fetched messages, unaltered |
| `Pipeline.OfferedExactlyOnce` | internal/gateway/service/server.go:49-58 | with the workers publishing side by side, once no broadcast is under way each message broadcast since a client joined was offered to it exactly once |
| `Pipeline.PanicOnlyAfterClose` | internal/gateway/service/server.go:49-59 | the hub never panics; the pool only once its channel is closed |
| `Pipeline.CloseCanMeetTheLoop` | internal/gateway/service/server.go:76-84 | a schedule in which Close overtakes a message fetched before it began ends in a send on the closed channel |
| `Pipeline.ShutdownPanicsExactly` | pkg/kafka/consumer.go:32-50 | at whatever reachable point Wait returns, some continuation panics if and only if the loop has not stopped |
| `Pipeline.ShutdownPanicsWithoutFetchExactly` | internal/gateway/service/server.go:75-84 | the same with no further message fetched: if and only if the loop stands between fetching and counting |
| `Pipeline.OrderlyShutdown` | pkg/kafka/consumer.go:32-50 | a whole run in which Wait returns only after the loop has stopped never panics |
| `Keyset.ListUsersPage` | internal/user/sqlc/gen/user.sql.go:178-202 | the query's error if it fails; else all rows in order, or the first scan error, or else the cursor's own error |
| `Keyset.RowsRoundTrip` | internal/user/sqlc/gen/user.sql.go:184-201 | a page read without errors is the page |
| `Keyset.PageProperties` | internal/user/sqlc/gen/user.sql.go:155-161 | a page is strictly descending, within limit, selected, and leaves out only rows below all it lists |
| `Keyset.CursorMatches` | internal/user/sqlc/gen/user.sql.go:158 | with the last row as cursor the WHERE clause selects exactly the rows strictly below it |
| `Keyset.TimestampAloneSkipsTies` | internal/user/sqlc/gen/user.sql.go:158 | with a timestamp and no id a page holds strictly older rows only, so rows sharing the timestamp are skipped |
| `Keyset.ScanDescends` | internal/user/sqlc/gen/user.sql.go:155-202 | whatever changes between pages, a scan is strictly descending and lists only rows present at some query |
| `Keyset.PagesAreCurrent` | internal/user/sqlc/gen/user.sql.go:155-202 | a scan is its pages in order, and each row of a page was in the table when that page was read |
| `Keyset.ScanIsComplete` | internal/user/sqlc/gen/user.sql.go:155-202 | a row present at every query is listed exactly once by a scan that finishes, whatever is inserted or deleted meanwhile |
| `Keyset.PageConsumes` | internal/user/sqlc/gen/user.sql.go:155-202 | on a fixed table a full page shrinks what is left to see by exactly its length |
| `Keyset.FixedTableListedWhole` | internal/user/sqlc/gen/user.sql.go:155-202 | a fixed table is listed whole, in order, after at most size / limit + 1 queries for limit >= 1 |
| `Keyset.ZeroLimitNeverEnds` | internal/user/sqlc/gen/user.sql.go:160 | with limit 0 no number of queries finishes the scan |
| `Retry.WithBackoff` | pkg/retry/retry.go:11-28 | for every behaviour of function, jitter and context: nil after the first success, the context's error when it ends a wait, else the last error; with the calls and full waits made until then |
| `Retry.ContextEndsTheLoop` | pkg/retry/retry.go:21-23 | if the calls up to round j fail and the context first ends the wait of round j, its error is returned after j+1 calls and j full waits |
| `Retry.SuccessEndsTheLoop` | pkg/retry/retry.go:14-17 | a success after j failures returns nil after j+1 calls and j full waits |
| `Retry.AttemptsRunOut` | pkg/retry/retry.go:13-27 | if nothing stops the loop the last error is returned after a full wait for every attempt |
| `Retry.EveryRunEnds` | pkg/retry/retry.go:13-27 | every run with an attempt is one of these three |
| `Retry.CallsEndAtFirstStop` | pkg/retry/retry.go:13-26 | the calls made end at the first success or ended context, and no earlier |
| `Retry.NilMeansSuccess` | pkg/retry/retry.go:11-28 | nil is returned exactly when a call succeeds before the context ends, or when no attempt is allowed |
| `Retry.WaitIsExact` | pkg/retry/retry.go:19-20 | the 64-bit arithmetic gives 2^i * 100 ms plus jitter exactly for the rounds i <= 36 |
| `Retry.RoundThirtyEightDoesNotWait` | pkg/retry/retry.go:19-24 | the 38th wait is negative for every jitter |
| `Retry.WaitsGrow` | pkg/retry/retry.go:19-20 | each wait exceeds the previous one for every choice of jitters |
| `Retry.AllFail` | pkg/retry/retry.go:11-28 | n failing attempts make n calls, return the last error and wait between 100 (2^n - 1) and 100 (2^n - 1) + 99 n ms |
| `Errors.Validation` | pkg/errors/status.go:62-75 | the copying loop yields the violations unchanged and in order |
| `Errors.ExtractCodeAndRequestID` | pkg/errors/status.go:146-168 | the loop finds the last non-empty reason and the first non-empty request id |
| `Errors.Parse` | pkg/errors/status.go:190-203 | code, request id and gRPC code of any error, with the fallback for the internal code |
| `Errors.RoundTrip` | pkg/errors/status.go:39-57 | parsing a status made from a code returns the request id, the mapped gRPC code, and the code itself exactly when it is not empty; further details change nothing |
| `Errors.BuildersRoundTrip` | pkg/errors/status.go:62-124 | every builder's error parses back to its own code and request id |
| `Errors.BareStatusParses` | pkg/errors/status.go:190-203 | a status without a reason parses to the code its gRPC code stands for |
| `Errors.LastReasonFirstId` | pkg/errors/status.go:152-167 | of several reasons the last decides, of several request ids the first |
| `Errors.HintsAreCarried` | pkg/errors/status.go:97-117 | the retry delay and the resource hint follow the two common details unchanged |
| `Errors.FallbackInverts` | pkg/errors/status.go:170-185 | without a reason the gRPC code gives a standard code back except for the weak password, which shares its code with validation |
| `Errors.HTTPError` | pkg/errors/http.go:63-104 | status, message and details of the envelope for any error; the last BadRequest with violations decides |
| `Errors.NonStatusGivesDefault` | pkg/errors/http.go:64-72 | an error that is no status answers the caller's default, its own text and no details |
| `Errors.DefaultExactly` | pkg/errors/http.go:74-77 | a status answers every caller's own default if and only if its gRPC code is not in the table |
| `Errors.CodesAnswer` | pkg/errors/http.go:128-159 | every code, through its status, answers its own 400, 409, 401, 404, 429 or 500 with its own message; an unknown one the internal |
| `Errors.ForeignCodesAnswer` | pkg/errors/http.go:128-159 | the statuses of the gRPC codes that no builder uses |
| `Errors.BuildersAnswer` | pkg/errors/status.go:62-124 | status, message and details that the client of each builder's error is shown |
| `Errors.TablesAgreeExactly` | pkg/errors/status.go:127-142 | the code table and the status path give one HTTP status for every code but the weak password |
| `Errors.LastViolationsShown` | pkg/errors/http.go:76-101 | of several lists of violations the last that is not empty is shown |
| `Errors.ViolationsRoundTrip` | pkg/errors/http.go:76-101 | HTTPError on Validation reproduces the violations in order for a list of any length, and shows no details exactly for the empty one |

## Left out

- Concurrent Logins: the limiter map has no lock, so the limiter and the service runs take one Login at a time.
- Concurrent RefreshSession calls: lookup and revoke are separate repository calls, so one use is stated for serial runs; the repository's own invariants hold under any interleaving of its calls.
- `rate.Limiter` floating point: the bucket is exact; rounding of token fractions is not modelled.
- Tokens with claims this service never signs, such as a missing expiry, and the cryptography itself: every other string counts as unverifiable.
- Field validation, UUID parsing, password hashing cost and JSON text: their outcomes are inputs; strings are sequences of characters.
- The Postgres backend: only the session table with its unique token hash (pkg/migrations/up/000001_users_.up.sql) is modelled; case-insensitive emails, the unique username, database failures and `PostgresRepo` forwarding are not.
- `singleflight`: a flight is one repository read whose result its waiters share; its panics and `Forget` are not modelled.
- `AuditConsumer.WorkerPoolObject.Submit`: worker steps happen only where the caller blocks; arbitrary interleaving of callers and workers is what `WorkerPool` and `Pipeline` cover.
- `AuditConsumer.WorkerPoolObject.Shutdown`: no other submitter runs beside it, and a second call, which closes a closed channel, is not modelled; `WorkerPool` and `Pipeline` have the concurrent submitters.
- `AuditConsumer.Consumer.Close`: called here after the loop has ended; `Pipeline` has the close that overtakes it.
- `HubProtocol.DeliveryWithOnePublisher`: with several publishers the order of events differs between clients; which events are offered, and how often, is stated for them in `Delivery`.
- The RWMutex gives no preference to waiting writers here; fairness and starvation are not modelled.
- `PublishCtx`, the SSE HTTP handler with its heartbeats, and `Broadcast` beyond its delegation to `Publish`.
- `Keyset.ListUsersPage`: rows are represented by their sort key; a negative limit, which the database refuses, is a failed query.
- `Retry.WithBackoff`: the context's error is the text of a cancelled context; an exceeded deadline has another text.
- Cache lifetimes of two and ten minutes: an entry may expire before any operation.
- `Retry.WaitIsExact`: the conversion of a float beyond the int64 range follows amd64; other platforms may differ past round 63.
- The text of user-facing messages: a status carries the code whose message it shows. Response timestamps and meta fields are not modelled.
- Kafka, Redis, Cassandra and Vault clients, audit emission (its result is ignored), gateway routes and handlers, generated code and the `cmd` mains: wiring without invariants of its own.
