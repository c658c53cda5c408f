/** The older token helpers (`utils/token.ts`): a token paired with its SHA-256 hash,
    a numeric one-time code, and access/refresh tokens whose payloads carry no
    session id. Its `generateToken` is the same function as the newer codec's,
    `TokenLib.GenerateToken`. */
module LegacyTokens {
  import opened Common
  import TokenLib
  import AppConfig

  datatype SecureToken = SecureToken(token: string, hashedToken: string)

  /** `generateSecureToken(length)`: a fresh token and `hashToken(token)`, the hex
      SHA-256 digest (`sha256`). */
  function GenerateSecureToken(length: nat, random: seq<byte>, sha256: string -> string): (r: SecureToken)
    requires |random| == TokenLib.BytesNeeded(length)
    ensures r.token == TokenLib.GenerateToken(length, random)
    ensures |r.token| == length
    ensures r.hashedToken == sha256(r.token)
  {
    var token := TokenLib.GenerateToken(length, random);
    SecureToken(token, sha256(token))
  }

  /** The decimal digit character for 0..9, as `result += byte % 10` appends it. */
  function DecimalChar(d: int): (c: char)
    requires 0 <= d < 10
    ensures '0' <= c <= '9'
  {
    (48 + d) as char
  }

  /** The digits of a random code: one per byte, `byte % 10`. */
  function CodeDigits(buffer: seq<byte>): (r: string)
    ensures |r| == |buffer|
  {
    seq(|buffer|, i requires 0 <= i < |buffer| => DecimalChar(buffer[i] % 10))
  }

  /** What `generateRandomCode(length)` returns for the bytes `buffer` drawn by
      `randomBytes(ceil(0.75 * length))`: the digits cut to `length` and left-padded
      with "0". */
  function RandomCode(length: nat, buffer: seq<byte>): string {
    PadStart(SliceTo(CodeDigits(buffer), length), length, '0')
  }

  /** `generateRandomCode(length)`: one digit per byte, stopping once `length` digits
      are collected. */
  method GenerateRandomCode(length: nat, buffer: seq<byte>) returns (code: string)
    requires |buffer| == TokenLib.BytesNeeded(length)
    ensures code == RandomCode(length, buffer)
  {
    var result := "";
    for i := 0 to |buffer|
      invariant |result| == i
      invariant forall j :: 0 <= j < i ==> result[j] == DecimalChar(buffer[j] % 10)
    {
      result := result + [DecimalChar(buffer[i] % 10)];
      if |result| >= length {
        // only the last byte can complete the code, as there are fewer bytes than digits
        assert result == CodeDigits(buffer);
        break;
      }
    }
    assert result == CodeDigits(buffer);
    code := PadStart(SliceTo(result, length), length, '0');
  }

  /** There are fewer bytes than digits wanted, so the code is exactly `length`
      decimal digits, starting with `length - |buffer|` zeros (two for the default
      length 8) followed by one digit per byte. */
  lemma RandomCodeShape(length: nat, buffer: seq<byte>)
    requires |buffer| == TokenLib.BytesNeeded(length)
    ensures |RandomCode(length, buffer)| == length
    ensures forall k :: 0 <= k < length ==> '0' <= RandomCode(length, buffer)[k] <= '9'
    ensures forall k :: 0 <= k < length - |buffer| ==> RandomCode(length, buffer)[k] == '0'
    ensures forall i :: 0 <= i < |buffer| ==> RandomCode(length, buffer)[length - |buffer| + i] == DecimalChar(buffer[i] % 10)
  {
    var d := CodeDigits(buffer);
    assert SliceTo(d, length) == d;
    var code := PadStart(d, length, '0');
    assert RandomCode(length, buffer) == code;
    forall k | length - |buffer| <= k < length
      ensures code[k] == d[k - (length - |buffer|)]
    {
    }
  }

  /** `s.slice(0, n)`: at most the first `n` characters. */
  function SliceTo(s: string, n: nat): (r: string)
    ensures |r| == if |s| <= n then |s| else n
    ensures r == s[..|r|]
  {
    if |s| <= n then s else s[..n]
  }

  /** `s.padStart(n, c)`: `c` repeated in front of `s` up to length `n`. */
  function PadStart(s: string, n: nat, c: char): (r: string)
    ensures |r| == if |s| < n then n else |s|
    ensures forall k :: |r| - |s| <= k < |r| ==> r[k] == s[k - (|r| - |s|)]
    ensures forall k :: 0 <= k < |r| - |s| ==> r[k] == c
  {
    if |s| < n then seq(n - |s|, _ => c) + s else s
  }

  /** The older `generateAccessToken(payload)`: 30-minute expiry, no audience or issuer. */
  function GenerateAccessToken(payload: Claims, nowMs: int, env: AppConfig.Env): (t: TokenLib.TokenString)
    requires payload.LegacyAccessClaims?
    ensures t.Signed? && t.jwt.audience.None? && t.jwt.issuer.None?
    ensures TokenLib.Verify(t, env.accessTokenSecret, nowMs) == Some(payload)
    ensures t.jwt.exp == nowMs / 1000 + AppConfig.ACCESS_TOKEN_EXPIRES_IN_MS / 1000
  {
    TokenLib.Sign(payload, env.accessTokenSecret, nowMs, TokenLib.SignOptions(TokenLib.Minutes(30), None, None))
  }

  /** The older `generateRefreshToken(payload)`: signs `{sub}` for "7d", which is
      seven days in seconds, the same span as the configured refresh lifetime. */
  function GenerateRefreshToken(payload: Claims, nowMs: int, env: AppConfig.Env): (t: TokenLib.TokenString)
    requires payload.LegacyRefreshClaims?
    ensures t.Signed? && t.jwt.claims == payload
    ensures t.jwt.exp == nowMs / 1000 + AppConfig.REFRESH_TOKEN_EXPIRES_IN_MS / 1000
  {
    TokenLib.Sign(payload, env.refreshTokenSecret, nowMs, TokenLib.SignOptions(TokenLib.Days(7), None, None))
  }

  type Claims = TokenLib.Claims
}
