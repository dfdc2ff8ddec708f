/**
 * Access and refresh tokens (pkg/auth/jwt.go).
 *
 * Signing is deterministic and covers only the subject and the expiry second, so
 * a signed token is that pair. SHA-256 of a token is an injective digest.
 */
module Tokens {
  import opened Clock
  import opened Wrappers

  /** The canonical text of a UUID. */
  type Id = string

  /** `Other` is any text that carries no valid signature of the service's key. */
  datatype Token = Signed(sub: Id, exp: int) | Other(text: string)

  datatype Digest = Sha256(of: Token)

  const ACCESS_TTL := 15 * MINUTE
  const REFRESH_TTL := 7 * DAY
  const ACCESS_SECONDS := 900
  const REFRESH_SECONDS := 604800

  /** `TokenManager.Generate`, with the clock readings of its two claims. */
  function Generate(sub: Id, accessAt: Time, refreshAt: Time): (Token, Token) {
    (Signed(sub, Unix(accessAt + ACCESS_TTL)), Signed(sub, Unix(refreshAt + REFRESH_TTL)))
  }

  /** `TokenManager.Verify`: the signature holds and the expiry instant is still ahead. */
  function Verify(token: Token, now: Time): Option<Id> {
    match token
    case Other(_) => None
    case Signed(sub, exp) => if Before(now, exp * SECOND) then Some(sub) else None
  }

  /** Whether a token can still be accepted at `now` or later. */
  predicate Alive(token: Token, now: Time) {
    token.Signed? && now < token.exp * SECOND
  }

  /** The second in which a refresh token with this expiry is issued. */
  function IssuedSecond(token: Token): int
    requires token.Signed?
  {
    token.exp - REFRESH_SECONDS
  }

  /** A refresh token remembers its issue second, and nothing finer. */
  lemma RefreshTokenSecond(sub: Id, accessAt: Time, refreshAt: Time)
    ensures var t := Generate(sub, accessAt, refreshAt).1;
            IssuedSecond(t) == Unix(refreshAt)
            && refreshAt + REFRESH_TTL - SECOND < t.exp * SECOND <= refreshAt + REFRESH_TTL
  {
    UnixShift(refreshAt, REFRESH_SECONDS);
    UnixBounds(refreshAt);
  }

  /** Two refresh tokens are one string exactly when subject and second agree. */
  lemma RefreshTokensCollide(sub: Id, sub': Id, a: Time, t: Time, a': Time, t': Time)
    ensures Generate(sub, a, t).1 == Generate(sub', a', t').1 <==> sub == sub' && Unix(t) == Unix(t')
  {
    RefreshTokenSecond(sub, a, t);
    RefreshTokenSecond(sub', a', t');
  }

  /**
   * An access token is the same string as a refresh token of its subject issued seven
   * days less fifteen minutes before it, and as no other refresh token.
   */
  lemma AccessCollidesWithRefresh(sub: Id, sub': Id, a: Time, r: Time, a': Time, t: Time)
    ensures Generate(sub, a, r).0 == Generate(sub', a', t).1
            <==> sub == sub' && Unix(a) + ACCESS_SECONDS == Unix(t) + REFRESH_SECONDS
  {
    UnixShift(a, ACCESS_SECONDS);
    UnixShift(t, REFRESH_SECONDS);
  }

  /** Fresh tokens verify for their subject in the seconds before their expiry second and never again. */
  lemma VerifyGenerated(sub: Id, accessAt: Time, refreshAt: Time, now: Time)
    ensures Verify(Generate(sub, accessAt, refreshAt).1, now)
            == if Unix(now) < Unix(refreshAt) + 604_800 then Some(sub) else None
    ensures Verify(Generate(sub, accessAt, refreshAt).0, now)
            == if Unix(now) < Unix(accessAt) + 900 then Some(sub) else None
  {
    RefreshTokenSecond(sub, accessAt, refreshAt);
    UnixShift(accessAt, ACCESS_SECONDS);
    UnixBounds(now);
  }

  /** Only a signed token ever verifies, before its expiry instant, and only for its own subject. */
  lemma OnlySignedVerifies(token: Token, now: Time, sub: Id)
    ensures Verify(token, now) == Some(sub) <==>
            token.Signed? && token.sub == sub && now < token.exp * 1_000_000_000
  {
  }
}
