/**
 * The checkout provider client: a cached bearer token obtained with a client-credentials
 * grant, and the two provider calls made with it. The HTTP layer is not modelled: each
 * method is given the provider's reply (a body or an error message) and returns, besides
 * its result, the calls it issued, in order.
 */
module DinteroClient {
  import opened Wrappers
  import opened Runtime
  import opened DinteroConfig
  import opened DinteroTypes

  /** The token is given up this many seconds before the provider says it expires. */
  const SafetyMarginSeconds := 300

  /** An outbound HTTP call. `basicCredentials` is the `id:secret` pair before base64 encoding. */
  datatype Call =
    | TokenPost(url: string, grantType: string, audience: string, basicCredentials: string)
    | SessionPost(url: string, body: SessionRequest, authorization: string)
    | StatusGet(url: string, authorization: string)

  /** The client-credentials grant request built from the configuration. */
  function TokenPostFor(config: Config): Call {
    TokenPost(config.authUrl, "client_credentials", config.audience, config.clientId + ":" + config.clientSecret)
  }

  /**
   * The expiry (milliseconds) stored for a token received at `receivedAt` (milliseconds)
   * that the provider says lives `expiresIn` seconds: the safety margin before the real
   * expiry, so a token granted for at most the margin is stale at once.
   */
  function ExpiryAt(receivedAt: int, expiresIn: int): (expiry: int)
    ensures expiry + SafetyMarginSeconds * 1000 == receivedAt + expiresIn * 1000
    ensures expiresIn <= SafetyMarginSeconds ==> expiry <= receivedAt
    ensures expiresIn > SafetyMarginSeconds ==> expiry > receivedAt
  {
    receivedAt + (expiresIn - SafetyMarginSeconds) * 1000
  }

  class Client {
    var accessToken: Option<string>
    var tokenExpiry: Option<int>

    /** A new client holds no token. */
    constructor()
      ensures accessToken == None && tokenExpiry == None
    {
      accessToken := None;
      tokenExpiry := None;
    }

    /** The cache guard: a non-empty token, a non-zero expiry, and `now` strictly before it. */
    predicate HasFreshToken(now: int)
      reads this
    {
      Truthy(accessToken) && tokenExpiry.Some? && tokenExpiry.value != 0 && now < tokenExpiry.value
    }

    /**
     * How one token lookup changes the cache: kept on a hit or a failed grant, replaced
     * by the granted token and its expiry otherwise.
     */
    twostate predicate TokenStep(checkedAt: int, receivedAt: int, grant: Result<AuthResponse, string>)
      reads this
    {
      if old(HasFreshToken(checkedAt)) || grant.Failure? then
        accessToken == old(accessToken) && tokenExpiry == old(tokenExpiry)
      else
        accessToken == Some(grant.value.accessToken)
        && tokenExpiry == Some(ExpiryAt(receivedAt, grant.value.expiresIn))
    }

    /**
     * `getAccessToken`: the clock reads `checkedAt` at the cache check and `receivedAt`
     * once the grant has arrived. On a hit nothing is fetched; otherwise the grant is
     * requested once, and the token returned is the one now stored.
     */
    method GetAccessToken(config: Config, checkedAt: int, receivedAt: int, grant: Result<AuthResponse, string>)
      returns (token: Result<string, string>, calls: seq<Call>)
      modifies this
      ensures TokenStep(checkedAt, receivedAt, grant)
      ensures old(HasFreshToken(checkedAt)) ==> calls == [] && token == Success(old(accessToken).value)
      ensures !old(HasFreshToken(checkedAt)) ==> calls == [TokenPostFor(config)]
      ensures !old(HasFreshToken(checkedAt)) && grant.Success? ==> token == Success(grant.value.accessToken)
      ensures !old(HasFreshToken(checkedAt)) && grant.Failure? ==> token == Failure(grant.error)
      ensures token.Success? ==> accessToken == Some(token.value)
    {
      if HasFreshToken(checkedAt) {
        return Success(accessToken.value), [];
      }
      calls := [TokenPostFor(config)];
      match grant
      case Failure(e) =>
        token := Failure(e);
      case Success(reply) =>
        accessToken := Some(reply.accessToken);
        tokenExpiry := Some(ExpiryAt(receivedAt, reply.expiresIn));
        token := Success(accessToken.value);
    }

    /**
     * `createSession`: posts the caller's request with its profile id replaced by the
     * configured one, authorised with the bearer token, and returns the reply unchanged.
     */
    method CreateSession(
      config: Config, params: SessionRequest, checkedAt: int, receivedAt: int,
      grant: Result<AuthResponse, string>, reply: Result<SessionResponse, string>)
      returns (r: Result<SessionResponse, string>, calls: seq<Call>)
      modifies this
      ensures TokenStep(checkedAt, receivedAt, grant)
      ensures old(HasFreshToken(checkedAt)) || grant.Success? ==>
        && accessToken.Some?
        && calls == (if old(HasFreshToken(checkedAt)) then [] else [TokenPostFor(config)])
                    + [SessionPost(config.sessionUrl, params.(profileId := config.profileId), "Bearer " + accessToken.value)]
        && r == reply
      ensures !old(HasFreshToken(checkedAt)) && grant.Failure? ==>
        calls == [TokenPostFor(config)] && r == Failure(grant.error)
    {
      var token, tokenCalls := GetAccessToken(config, checkedAt, receivedAt, grant);
      if token.Failure? {
        return Failure(token.error), tokenCalls;
      }
      var body := params.(profileId := config.profileId);
      calls := tokenCalls + [SessionPost(config.sessionUrl, body, "Bearer " + token.value)];
      r := reply;
    }

    /**
     * `getSessionStatus`: gets `SESSION_STATUS_URL/sessionId`, authorised with the bearer
     * token, and returns the reply body unchanged.
     */
    method GetSessionStatus(
      config: Config, sessionId: string, checkedAt: int, receivedAt: int,
      grant: Result<AuthResponse, string>, reply: Result<SessionStatusResponse, string>)
      returns (r: Result<SessionStatusResponse, string>, calls: seq<Call>)
      modifies this
      ensures TokenStep(checkedAt, receivedAt, grant)
      ensures old(HasFreshToken(checkedAt)) || grant.Success? ==>
        && accessToken.Some?
        && calls == (if old(HasFreshToken(checkedAt)) then [] else [TokenPostFor(config)])
                    + [StatusGet(config.sessionStatusUrl + "/" + sessionId, "Bearer " + accessToken.value)]
        && r == reply
      ensures !old(HasFreshToken(checkedAt)) && grant.Failure? ==>
        calls == [TokenPostFor(config)] && r == Failure(grant.error)
    {
      var token, tokenCalls := GetAccessToken(config, checkedAt, receivedAt, grant);
      if token.Failure? {
        return Failure(token.error), tokenCalls;
      }
      calls := tokenCalls + [StatusGet(config.sessionStatusUrl + "/" + sessionId, "Bearer " + token.value)];
      r := reply;
    }
  }

  /**
   * After a grant stored at `receivedAt`, a lookup at any `now` is a hit exactly when the
   * token is non-empty, the stored expiry is non-zero and `now` is before it; at the expiry
   * itself, and whenever the grant lived at most the safety margin, it is a miss.
   */
  lemma FreshnessAfterGrant(c: Client, receivedAt: int, grant: AuthResponse, now: int)
    requires c.accessToken == Some(grant.accessToken)
    requires c.tokenExpiry == Some(ExpiryAt(receivedAt, grant.expiresIn))
    ensures c.HasFreshToken(now) <==>
      grant.accessToken != "" && ExpiryAt(receivedAt, grant.expiresIn) != 0
      && now < ExpiryAt(receivedAt, grant.expiresIn)
    ensures now == ExpiryAt(receivedAt, grant.expiresIn) ==> !c.HasFreshToken(now)
    ensures grant.expiresIn <= SafetyMarginSeconds && now >= receivedAt ==> !c.HasFreshToken(now)
  {
  }
}
