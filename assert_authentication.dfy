/** The access-token guard (`middlewares/assertAuthentication.ts`) and the strategy
    it runs (`services/strategies/jwt.ts`): the bearer token must verify with the
    access secret, name an existing user by email, and carry a session that is not
    on the denylist. */
module AssertAuth {
  import opened Common
  import opened Tables
  import TokenLib
  import AppConfig
  import opened TokenBlacklist

  /** What the strategy hands the callback: an error, no user, or a user with the
      token's payload. */
  datatype StrategyResult = StrategyError(err: string) | NoUser | Authenticated(user: User, payload: TokenLib.Claims)

  /** The email claim of a payload, for the payloads that carry one. */
  function EmailClaim(c: TokenLib.Claims): Option<string> {
    if c.AccessClaims? || c.LegacyAccessClaims? then Some(c.email) else None
  }

  /** The strategy at time `now`: a token that does not verify with the access secret
      (expired, wrong secret, malformed or absent) gives no user; otherwise the user
      is looked up by the token's email. */
  function JwtStrategy(token: TokenLib.TokenString, accessSecret: string, users: seq<User>, now: int): (r: StrategyResult)
    ensures r.Authenticated? <==>
              TokenLib.Verify(token, accessSecret, now).Some? &&
              var e := EmailClaim(token.jwt.claims);
              e.Some? && exists i :: 0 <= i < |users| && users[i].email == e.value
    ensures r.Authenticated? ==> r.payload == token.jwt.claims && r.user in users && Some(r.user.email) == EmailClaim(r.payload)
    ensures !r.StrategyError?
  {
    match TokenLib.Verify(token, accessSecret, now)
    case None => NoUser
    case Some(payload) =>
      match EmailClaim(payload)
      case None => NoUser
      case Some(email) =>
        match FirstWhere(users, (u: User) => u.email == email)
        case None => NoUser
        case Some(user) => Authenticated(user, payload)
  }

  /** What the callback does: pass the error on, answer 401, accept the user, or let
      the cache error escape (no answer, no `next`). */
  datatype Decision = PassToNext(err: string) | Respond(response: ServiceResponse<()>) | Accept(user: User) | Unhandled

  const UNAUTHORIZED_MESSAGE := "Unauthorized"

  /** The callback's decision at time `now` against the denylist in `cache`. */
  function Decide(r: StrategyResult, cache: RedisCache, now: int): (d: Decision)
    reads cache
    ensures r.StrategyError? ==> d == PassToNext(r.err)
    ensures r.NoUser? ==> d == Respond(Fail(UNAUTHORIZED_MESSAGE, UNAUTHORIZED))
    ensures d.Accept? <==>
              r.Authenticated? && CheckTokenBlacklist(cache, TokenLib.SessionIdText(r.payload), now) == Some(false)
    ensures d.Accept? ==> d.user == r.user
    ensures r.Authenticated? && CheckTokenBlacklist(cache, TokenLib.SessionIdText(r.payload), now) == Some(true) ==>
              d == Respond(Fail(UNAUTHORIZED_MESSAGE, UNAUTHORIZED))
    ensures d.Unhandled? <==> r.Authenticated? && !cache.up
  {
    match r
    case StrategyError(err) => PassToNext(err)
    case NoUser => Respond(Fail(UNAUTHORIZED_MESSAGE, UNAUTHORIZED))
    case Authenticated(user, payload) =>
      match CheckTokenBlacklist(cache, TokenLib.SessionIdText(payload), now)
      case None => Unhandled
      case Some(blacklisted) =>
        if blacklisted then Respond(Fail(UNAUTHORIZED_MESSAGE, UNAUTHORIZED)) else Accept(user)
  }

  datatype NextCall = Next | NextWithError(err: string)

  /** The request and response objects the middleware touches. */
  class Exchange {
    var user: Option<User>
    var nextCalls: seq<NextCall>
    var sent: seq<ServiceResponse<()>>

    constructor ()
      ensures user.None? && nextCalls == [] && sent == []
    {
      user := None;
      nextCalls := [];
      sent := [];
    }
  }

  /** The middleware for one request: only on acceptance is `req.user` set and `next()`
      called, once; an error is passed to `next(err)`; a rejection sends the 401. */
  method AssertAuthentication(x: Exchange, r: StrategyResult, cache: RedisCache, now: int)
    modifies x
    ensures var d := Decide(r, cache, now);
            (d.Accept? ==> x.user == Some(d.user) && x.nextCalls == old(x.nextCalls) + [Next] && x.sent == old(x.sent)) &&
            (d.PassToNext? ==> x.user == old(x.user) && x.nextCalls == old(x.nextCalls) + [NextWithError(d.err)] && x.sent == old(x.sent)) &&
            (d.Respond? ==> x.user == old(x.user) && x.nextCalls == old(x.nextCalls) && x.sent == old(x.sent) + [d.response]) &&
            (d.Unhandled? ==> unchanged(x))
  {
    match r {
      case StrategyError(err) =>
        x.nextCalls := x.nextCalls + [NextWithError(err)];
      case NoUser =>
        x.sent := x.sent + [Fail(UNAUTHORIZED_MESSAGE, UNAUTHORIZED)];
      case Authenticated(user, payload) =>
        var isBlacklisted := CheckTokenBlacklist(cache, TokenLib.SessionIdText(payload), now);
        if isBlacklisted.None? {
          return;
        }
        if isBlacklisted.value {
          x.sent := x.sent + [Fail(UNAUTHORIZED_MESSAGE, UNAUTHORIZED)];
          return;
        }
        x.user := Some(user);
        x.nextCalls := x.nextCalls + [Next];
    }
  }

  /** Once a session has been revoked at time `t0` (sign-out or refresh), every access
      token of that session issued no later than `t0` is refused for as long as it
      still verifies: access tokens live 30 minutes, the denylist entry seven days and
      two minutes. */
  lemma RevokedSessionRejected(token: TokenLib.TokenString, env: AppConfig.Env, users: seq<User>, cache: RedisCache,
                               entries: map<string, CacheEntry>, issuedAt: int, t0: int, t: int, claims: TokenLib.Claims)
    requires claims.AccessClaims?
    requires token == TokenLib.GenerateAccessToken(claims, issuedAt, env)
    requires issuedAt <= t0
    requires cache.up && cache.entries == Added(entries, claims.sessionId, AppConfig.REFRESH_TOKEN_EXPIRES_IN_MS, t0)
    ensures !Decide(JwtStrategy(token, env.accessTokenSecret, users, t), cache, t).Accept?
  {
    var r := JwtStrategy(token, env.accessTokenSecret, users, t);
    if r.Authenticated? {
      assert TokenLib.Verify(token, env.accessTokenSecret, t).Some?;
      TokenLib.AccessTokenLifetime(claims, issuedAt, env, t);
      assert t < issuedAt + AppConfig.ACCESS_TOKEN_EXPIRES_IN_MS;
      AddedIsLive(entries, claims.sessionId, AppConfig.REFRESH_TOKEN_EXPIRES_IN_MS, t0, t);
    }
  }
}
