/** Access tokens and sessions. */
module Tokens {
  import opened Common

  datatype AccessToken = AccessToken(
    value: string,
    resource: string,
    scopes: seq<string>,
    issuedAt: Instant,
    expiresAt: Instant)
  {
    /** Spent at `now`, counting anything within `skew` of expiry as spent. */
    predicate Expired(now: Instant, skew: Duration) {
      !(now + skew < expiresAt)
    }

    /** The remaining lifetime at `now`, never negative. */
    function TTL(now: Instant): (ttl: Duration) {
      var remaining := expiresAt - now;
      if remaining < 0 then 0 else remaining
    }
  }

  /** The token a failed call returns beside its error. */
  const ZERO_TOKEN := AccessToken("", "", [], 0, 0)

  /** One user session; `refreshExpiresAt` is None where the source holds the zero time. */
  datatype Session = Session(
    subject: string,
    access: AccessToken,
    refreshToken: string,
    refreshExpiresAt: Option<Instant>)
}
