/** The arithmetic and the checks of TokenService
  * (Audiochan.Infrastructure/Security/TokenService.cs). Times are instants
  * and durations are signed numbers of seconds; the
  * clock's reading is a parameter, and so is the text of a new refresh
  * token, which the service draws from a random generator. */
module Tokens {
  import opened Wrappers
  import opened Clock

  /** RefreshToken: its text, expiry, creation time, owner and, once
    * revoked, the revocation time. */
  datatype RefreshToken = RefreshToken(
    token: string, expiry: Instant, created: Instant, userId: string, revoked: Option<Instant>)

  /** TokenService.IsRefreshTokenValid against the clock reading now. */
  predicate IsRefreshTokenValid(t: RefreshToken, now: Instant)
  {
    if t.revoked.Some? then false
    else if t.expiry <= now then false
    else true
  }

  /** A token is valid exactly when it is not revoked and expires after
    * now; a revoked token never is, and a token that expires at now is
    * not. */
  lemma RefreshTokenValidity(t: RefreshToken, now: Instant)
    ensures IsRefreshTokenValid(t, now) <==> t.revoked.None? && now < t.expiry
    ensures t.revoked.Some? ==> !IsRefreshTokenValid(t, now)
    ensures !IsRefreshTokenValid(t.(expiry := now), now)
  {
  }

  /** Validity only ends: a token valid at a time was valid at every
    * earlier time, and one invalid at a time stays invalid. */
  lemma ValidityOnlyEnds(t: RefreshToken, earlier: Instant, later: Instant)
    requires earlier <= later
    ensures IsRefreshTokenValid(t, later) ==> IsRefreshTokenValid(t, earlier)
    ensures !IsRefreshTokenValid(t, earlier) ==> !IsRefreshTokenValid(t, later)
  {
  }

  /** TokenService.GenerateRefreshToken: the given token text, created now,
    * expiring the refresh lifetime later, owned by the user, not revoked. */
  function GenerateRefreshToken(userId: string, token: string, now: Instant, refreshTokenExpiration: int)
    : (r: RefreshToken)
    ensures r.userId == userId && r.token == token && r.revoked.None?
    ensures r.created == now && r.expiry - r.created == refreshTokenExpiration
  {
    RefreshToken(token, now + refreshTokenExpiration, now, userId, None)
  }

  /** A fresh token is valid from its creation until, and not including,
    * its expiry, so it is valid when made exactly when the lifetime is
    * positive. */
  lemma FreshTokenLifetime(userId: string, token: string, now: Instant, refreshTokenExpiration: int, at: Instant)
    requires now <= at
    ensures IsRefreshTokenValid(GenerateRefreshToken(userId, token, now, refreshTokenExpiration), at)
            <==> at < now + refreshTokenExpiration
    ensures IsRefreshTokenValid(GenerateRefreshToken(userId, token, now, refreshTokenExpiration), now)
            <==> refreshTokenExpiration > 0
  {
    RefreshTokenValidity(GenerateRefreshToken(userId, token, now, refreshTokenExpiration), at);
    RefreshTokenValidity(GenerateRefreshToken(userId, token, now, refreshTokenExpiration), now);
  }

  /** The expiry of an access token made at now: the creation time plus
    * the access lifetime. */
  function AccessTokenExpiry(now: Instant, accessTokenExpiration: int): (r: Instant)
    ensures r - now == accessTokenExpiration
    ensures accessTokenExpiration > 0 ==> r > now
  {
    now + accessTokenExpiration
  }

  /** An access token and a refresh token made at the same time expire in
    * the order of their lifetimes. */
  lemma TokensExpireInOrder(userId: string, token: string, now: Instant, accessTokenExpiration: int,
                            refreshTokenExpiration: int)
    requires accessTokenExpiration <= refreshTokenExpiration
    ensures AccessTokenExpiry(now, accessTokenExpiration)
            <= GenerateRefreshToken(userId, token, now, refreshTokenExpiration).expiry
  {
  }
}
