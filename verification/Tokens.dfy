/** Refresh JWTs as values: who they name and when Parse stops accepting them. */
module Tokens {
  import opened RefreshStore

  /** Clock skew tolerated by Parse: 30 s. */
  const LEEWAY: Instant := 30_000

  /** What a signed refresh token says about its jti; signatures are unforgeable. */
  datatype Claims = Claims(user: Uuid, expiresAt: Instant)

  /** A NumericDate (RFC 7519, section 2) as the library writes it: whole seconds. */
  function NumericDate(t: Instant): Instant {
    t - t % 1000
  }

  /**
   The expiry check of RFC 7519, section 4.1.4, with leeway. The not-before check always
   passes, since issue time never lies ahead of the single clock.
   */
  predicate ParseAccepts(claims: Claims, now: Instant) {
    now < NumericDate(claims.expiresAt) + LEEWAY
  }

  /** Issue stamps the refresh token with now + ttl and stores that same instant. */
  function Issued(user: Uuid, now: Instant, ttl: nat): Claims {
    Claims(user, now + ttl)
  }

  /**
   A token is accepted for its whole life and 29 s more, and refused from 30 s after its end: the leeway, less the
   part of a second that whole-second dates lose.
   */
  lemma TokenWindow(user: Uuid, issuedAt: Instant, ttl: nat, now: Instant)
    ensures now <= issuedAt + ttl + 29_000 ==> ParseAccepts(Issued(user, issuedAt, ttl), now)
    ensures now >= issuedAt + ttl + 30_000 ==> !ParseAccepts(Issued(user, issuedAt, ttl), now)
    ensures (issuedAt + ttl) % 1000 == 0 ==>
              (ParseAccepts(Issued(user, issuedAt, ttl), now) <==> now < issuedAt + ttl + 30_000)
  {
    var exp := issuedAt + ttl;
    assert 0 <= exp % 1000 < 1000;
  }

  /** A row old enough to be purged belongs to a token Parse has long refused. */
  lemma PurgedTokenIsRefused(claims: Claims, now: Instant, parsedAt: Instant)
    requires claims.expiresAt < now - DAY
    requires now - parsedAt <= DAY - LEEWAY
    ensures !ParseAccepts(claims, parsedAt)
  {
  }
}
