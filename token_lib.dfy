/** The token codec of the server (`lib/token.ts`): opaque URL-safe tokens from random
    bytes, signed access and refresh tokens, and keyed hashing for comparison.

    Signed tokens are modelled symbolically: a `Jwt` value records what was signed
    (claims, secret, issue time, expiry, audience, issuer), and a token presented by a
    client is a `TokenString` that is empty, unparseable, or such a value. */
module TokenLib {
  import opened Common
  import Base64
  import AppConfig

  /** Payloads the code signs. The two `Legacy` forms are those of the older
      `utils/token.ts`, which carry no session id. */
  datatype Claims =
    | AccessClaims(sub: string, email: string, userId: string, sessionId: string)
    | RefreshClaims(sub: string, sessionId: string)
    | LegacyAccessClaims(sub: string, email: string, userId: string)
    | LegacyRefreshClaims(sub: string)

  /** `payload.sessionId` as text: the session id of a payload that carries one, and
      "undefined" (what a template string makes of a missing field) otherwise. */
  function SessionIdText(c: Claims): string {
    if c.AccessClaims? || c.RefreshClaims? then c.sessionId else "undefined"
  }

  /** The `expiresIn` option of `sign`: a time-span string such as "30m" or "7d",
      or a plain number, which the signing library reads as SECONDS. */
  datatype ExpiresIn = Minutes(minutes: int) | Days(days: int) | Seconds(seconds: int)

  function ExpiresInSeconds(e: ExpiresIn): int {
    match e
    case Minutes(m) => 60 * m
    case Days(d) => 24 * 60 * 60 * d
    case Seconds(s) => s
  }

  datatype SignOptions = SignOptions(expiresIn: ExpiresIn, audience: Option<string>, issuer: Option<string>)

  /** A signed token: `iat` and `exp` are whole seconds since the epoch. */
  datatype Jwt = Jwt(claims: Claims, secret: string, iat: int, exp: int, audience: Option<string>, issuer: Option<string>)

  /** A token string as a client presents it. */
  datatype TokenString = Blank | Garbage | Signed(jwt: Jwt)

  /** `sign(payload, secret, options)` at clock time `nowMs`. */
  function Sign(claims: Claims, secret: string, nowMs: int, options: SignOptions): (t: TokenString)
    ensures t.Signed? && t.jwt.claims == claims && t.jwt.secret == secret
    ensures t.jwt.exp - t.jwt.iat == ExpiresInSeconds(options.expiresIn)
  {
    var iat := nowMs / 1000;
    Signed(Jwt(claims, secret, iat, iat + ExpiresInSeconds(options.expiresIn), options.audience, options.issuer))
  }

  /** `verify(token, secret)` at clock time `nowMs`: the payload when the token was
      signed with `secret` and has not expired, None where the library throws. */
  function Verify(t: TokenString, secret: string, nowMs: int): (r: Option<Claims>)
    ensures r.Some? <==> t.Signed? && t.jwt.secret == secret && nowMs / 1000 < t.jwt.exp
    ensures r.Some? ==> r.value == t.jwt.claims
  {
    match t
    case Signed(j) => if j.secret == secret && nowMs / 1000 < j.exp then Some(j.claims) else None
    case _ => None
  }

  /** `Math.ceil(length * 0.75)` for a whole length. */
  function BytesNeeded(length: nat): (n: nat)
    ensures 3 * length <= 4 * n < 3 * length + 4
    ensures n <= length
  {
    (3 * length + 3) / 4
  }

  /** `generateToken(length)`: base64url of `random` (the bytes drawn by
      `randomBytes(BytesNeeded(length))`) cut to `length` characters. */
  function GenerateToken(length: nat, random: seq<byte>): (token: string)
    requires |random| == BytesNeeded(length)
    ensures |token| == length
    ensures forall k :: 0 <= k < |token| ==> Base64.IsUrlSafeChar(token[k])
  {
    var encoded := Base64.EncodeUrl(random);
    assert |encoded| >= length by {
      assert 4 * |random| + 2 >= 3 * length + 2;
    }
    encoded[..length]
  }

  /** When the length is a multiple of four the cut removes nothing: the token is the
      whole encoding of the random bytes and decodes back to them (the configured
      length 48 is such a length). */
  lemma WholeTokenDecodes(length: nat, random: seq<byte>)
    requires |random| == BytesNeeded(length)
    requires length % 4 == 0
    ensures GenerateToken(length, random) == Base64.EncodeUrl(random)
    ensures Base64.DecodeUrl(GenerateToken(length, random)) == Some(random)
  {
    var encoded := Base64.EncodeUrl(random);
    assert 4 * |random| == 3 * length;
    assert |encoded| == length;
    Base64.DecodeUrlEncodeUrl(random);
  }

  /** `generateAccessToken(payload)`: 30-minute expiry, audience APP_ORIGIN, issuer BASE_URL. */
  function GenerateAccessToken(payload: Claims, nowMs: int, env: AppConfig.Env): (t: TokenString)
    requires payload.AccessClaims?
  {
    Sign(payload, env.accessTokenSecret, nowMs, SignOptions(Minutes(30), Some(env.appOrigin), Some(env.baseUrl)))
  }

  /** The access token carries the payload, the deployment's audience and issuer, and
      verifies with the access secret exactly until 1800 seconds after its issue second,
      so for at least 29 min 1 s and at most 30 min after signing. */
  lemma AccessTokenLifetime(payload: Claims, nowMs: int, env: AppConfig.Env, t: int)
    requires payload.AccessClaims?
    ensures GenerateAccessToken(payload, nowMs, env).jwt.audience == Some(env.appOrigin)
    ensures GenerateAccessToken(payload, nowMs, env).jwt.issuer == Some(env.baseUrl)
    ensures Verify(GenerateAccessToken(payload, nowMs, env), env.accessTokenSecret, t).Some?
            <==> t / 1000 < nowMs / 1000 + 1800
    ensures nowMs <= t < nowMs + 1799001 ==> Verify(GenerateAccessToken(payload, nowMs, env), env.accessTokenSecret, t) == Some(payload)
    ensures t >= nowMs + AppConfig.ACCESS_TOKEN_EXPIRES_IN_MS ==> Verify(GenerateAccessToken(payload, nowMs, env), env.accessTokenSecret, t).None?
  {
  }

  /** What `generateRefreshToken` returns: the token, its expiry time for the cookie,
      and the new session id. */
  datatype RefreshIssue = RefreshIssue(token: TokenString, expiresAtMs: int, sessionId: string)

  /** `generateRefreshToken(userId)` with `sessionId` the fresh `randomUUID()`: signs
      `{sub, sessionId}` with the refresh secret, passing the configured lifetime in
      milliseconds as the numeric `expiresIn`. */
  function GenerateRefreshToken(userId: string, nowMs: int, sessionId: string, env: AppConfig.Env): (issue: RefreshIssue)
    ensures issue.sessionId == sessionId
    ensures issue.expiresAtMs == nowMs + AppConfig.REFRESH_TOKEN_EXPIRES_IN_MS
    ensures Verify(issue.token, env.refreshTokenSecret, nowMs) == Some(RefreshClaims(userId, sessionId))
  {
    var token := Sign(RefreshClaims(userId, sessionId), env.refreshTokenSecret, nowMs,
                      SignOptions(Seconds(AppConfig.REFRESH_TOKEN_EXPIRES_IN_MS), None, None));
    RefreshIssue(token, nowMs + AppConfig.REFRESH_TOKEN_EXPIRES_IN_MS, sessionId)
  }

  /** The refresh token verifies, with its own user and session, throughout the
      cookie's lifetime. */
  lemma RefreshTokenValidUntilCookieExpiry(userId: string, nowMs: int, sessionId: string, env: AppConfig.Env, t: int)
    requires nowMs <= t <= GenerateRefreshToken(userId, nowMs, sessionId, env).expiresAtMs
    ensures Verify(GenerateRefreshToken(userId, nowMs, sessionId, env).token, env.refreshTokenSecret, t)
            == Some(RefreshClaims(userId, sessionId))
  {
    assert t / 1000 <= (nowMs + AppConfig.REFRESH_TOKEN_EXPIRES_IN_MS) / 1000;
  }

  /** As written, the refresh token itself expires the configured number of
      milliseconds, read as seconds, after issue: a thousand times the cookie's
      lifetime. It verifies exactly while the clock's whole seconds stay below that
      point, so it is still good a full week after the cookie has expired. */
  lemma {:induction false} RefreshTokenOutlivesCookie(userId: string, nowMs: int, sessionId: string, env: AppConfig.Env, t: int)
    ensures Verify(GenerateRefreshToken(userId, nowMs, sessionId, env).token, env.refreshTokenSecret, t).Some?
            <==> t / 1000 < nowMs / 1000 + AppConfig.REFRESH_TOKEN_EXPIRES_IN_MS
    ensures var issue := GenerateRefreshToken(userId, nowMs, sessionId, env);
            Verify(issue.token, env.refreshTokenSecret, issue.expiresAtMs + AppConfig.REFRESH_TOKEN_EXPIRES_IN_MS)
            == Some(RefreshClaims(userId, sessionId))
  {
    var issue := GenerateRefreshToken(userId, nowMs, sessionId, env);
    var later := issue.expiresAtMs + AppConfig.REFRESH_TOKEN_EXPIRES_IN_MS;
    assert later / 1000 == nowMs / 1000 + 2 * (AppConfig.REFRESH_TOKEN_EXPIRES_IN_MS / 1000) + (nowMs % 1000) / 1000;
  }

  /** `generateRefreshToken` with the lifetime handed to `sign` in seconds, as the
      signing library expects: the token and its cookie expire together. */
  function GenerateRefreshTokenIntended(userId: string, nowMs: int, sessionId: string, env: AppConfig.Env): (issue: RefreshIssue)
    ensures issue.sessionId == sessionId
    ensures issue.expiresAtMs == nowMs + AppConfig.REFRESH_TOKEN_EXPIRES_IN_MS
    ensures Verify(issue.token, env.refreshTokenSecret, nowMs) == Some(RefreshClaims(userId, sessionId))
  {
    var token := Sign(RefreshClaims(userId, sessionId), env.refreshTokenSecret, nowMs,
                      SignOptions(Seconds(AppConfig.REFRESH_TOKEN_EXPIRES_IN_MS / 1000), None, None));
    RefreshIssue(token, nowMs + AppConfig.REFRESH_TOKEN_EXPIRES_IN_MS, sessionId)
  }

  /** The intended refresh token verifies, with its own user and session, until the
      last whole second before its cookie expires, and never from the moment the
      cookie does. */
  lemma RefreshTokenIntendedLifetime(userId: string, nowMs: int, sessionId: string, env: AppConfig.Env, t: int)
    ensures var issue := GenerateRefreshTokenIntended(userId, nowMs, sessionId, env);
            nowMs <= t <= issue.expiresAtMs - 1000 ==>
              Verify(issue.token, env.refreshTokenSecret, t) == Some(RefreshClaims(userId, sessionId))
    ensures var issue := GenerateRefreshTokenIntended(userId, nowMs, sessionId, env);
            issue.expiresAtMs <= t ==> Verify(issue.token, env.refreshTokenSecret, t).None?
  {
    var issue := GenerateRefreshTokenIntended(userId, nowMs, sessionId, env);
    if nowMs <= t <= issue.expiresAtMs - 1000 {
      assert t / 1000 <= (nowMs + AppConfig.REFRESH_TOKEN_EXPIRES_IN_MS - 1000) / 1000;
    }
    if issue.expiresAtMs <= t {
      assert (nowMs + AppConfig.REFRESH_TOKEN_EXPIRES_IN_MS) / 1000 <= t / 1000;
    }
  }

  /** `hashToken(token, secret)`: the HMAC digest (`hmac(secret, token)`); an empty
      token throws. */
  function HashToken(token: string, secret: string, hmac: (string, string) -> seq<byte>): (r: Result<seq<byte>, string>)
    ensures r.Failure? <==> token == ""
    ensures r.Success? ==> r.value == hmac(secret, token)
  {
    if token == "" then Failure("Token is required") else Success(hmac(secret, token))
  }

  /** `compareTokens(a, b, secret)`: false for an empty side; otherwise the digests are
      compared, and digests of different lengths (where `timingSafeEqual` throws) give
      false. */
  function CompareTokens(a: string, b: string, secret: string, hmac: (string, string) -> seq<byte>): bool {
    if a == "" || b == "" then false
    else
      var ha := HashToken(a, secret, hmac).value;
      var hb := HashToken(b, secret, hmac).value;
      |ha| == |hb| && ha == hb
  }

  /** A token compares equal to itself exactly when it is not empty, and comparison
      does not depend on the order of its arguments. */
  lemma CompareTokensReflexive(a: string, b: string, secret: string, hmac: (string, string) -> seq<byte>)
    ensures CompareTokens(a, a, secret, hmac) <==> a != ""
    ensures CompareTokens(a, b, secret, hmac) == CompareTokens(b, a, secret, hmac)
    ensures CompareTokens(a, b, secret, hmac) ==> a != "" && b != ""
  {
  }

  /** Two tokens compare equal exactly when both are non-empty and their keyed digests
      agree: tokens whose digests differ never compare equal. */
  lemma CompareTokensDistinct(a: string, b: string, secret: string, hmac: (string, string) -> seq<byte>)
    ensures CompareTokens(a, b, secret, hmac) <==> a != "" && b != "" && hmac(secret, a) == hmac(secret, b)
    ensures hmac(secret, a) != hmac(secret, b) ==> !CompareTokens(a, b, secret, hmac)
  {
  }
}
