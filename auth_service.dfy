/** The authentication flows (`modules/auth/authService.ts`): sign-up, sign-in with
    the optional two-factor step, sign-out, email verification, forgot and reset
    password, and refresh-token rotation. Each flow maps its inputs and the store to
    a `ServiceResponse` and an update of the store, the denylist and the outbox.

    The older service of the first layout (`src/modules/auth/authService.ts`) runs the
    same sign-up, verification, forgot and reset flows; the only difference is that it
    creates users without a name, which `Variant` selects.

    A transaction is one atomic step: when an email inside it cannot be sent the
    transaction's writes are undone and the flow reports its generic error. */
module AuthFlows {
  import opened Common
  import opened Tables
  import TokenLib
  import AppConfig
  import Mail
  import opened TokenBlacklist
  import opened AuthRepo

  const SIGN_UP_OK := "If your email is not registered, you will receive a verification email shortly"
  const SIGN_UP_ERROR := "An error occurred while signing up."
  const INVALID_CREDENTIALS := "Invalid credentials"
  const SIGNED_IN := "Signed in successfully"
  const SIGNED_OUT := "Signed out successfully"
  const SIGN_OUT_ERROR := "An error occurred while signing out."
  const INVALID_TOKEN := "Invalid token"
  const EMAIL_VERIFIED := "Email verified"
  const FORGOT_OK := "If a matching account is found, a password reset email will be sent to you shortly"
  const FORGOT_ERROR := "An error occurred while forgetting password"
  const PASSWORD_RESET := "Password reset successfully"
  const REFRESH_NOT_FOUND := "Refresh token not found"
  const REFRESH_REVOKED := "Token has been revoked"
  const REFRESH_NO_USER := "User not found"
  const REFRESH_INVALID := "Invalid refresh token"
  const REFRESHED := "Token refreshed"

  /** Which of the two services: the current one, or the older one. */
  datatype Variant = Current | Legacy

  /** The `name` sign-up gives a new user: the email in the current service, none in
      the older one. */
  function NewUserName(variant: Variant, email: string): (name: Option<string>)
    ensures variant == Current ==> name == Some(email)
    ensures variant == Legacy ==> name.None?
  {
    if variant == Current then Some(email) else None
  }

  /** What creating one token draws: the generated row id and the random bytes. */
  datatype TokenDraw = TokenDraw(id: string, random: seq<byte>)

  /** Both configured token lengths are 48, so the draw is 36 bytes for either. */
  predicate Drawn(d: TokenDraw) {
    |d.random| == TokenLib.BytesNeeded(AppConfig.VERIFICATION_TOKEN_LENGTH)
      == TokenLib.BytesNeeded(AppConfig.RESET_PASSWORD_TOKEN_LENGTH)
  }

  /** Generated values a sign-up may use: ids of the new user and its settings, and the
      draws for a resent and for a new verification token. */
  datatype SignUpDraws = SignUpDraws(userId: string, settingsId: string, resend: TokenDraw, newUser: TokenDraw)

  datatype SignInData = SignInData(accessToken: TokenLib.TokenString, userId: string)
  /** A refresh token of `Blank` is the empty string the code returns on failure. */
  datatype SignInResult = SignInResult(refreshToken: TokenLib.TokenString, response: ServiceResponse<SignInData>)

  datatype RefreshData = RefreshData(accessToken: TokenLib.TokenString, userId: string)
  datatype RefreshResult = RefreshResult(refreshToken: TokenLib.TokenString, response: ServiceResponse<RefreshData>)

  class AuthService {
    const repo: AuthRepository
    const cache: RedisCache
    const mailer: Mail.Mailer
    const env: AppConfig.Env
    const variant: Variant

    constructor (repo: AuthRepository, cache: RedisCache, mailer: Mail.Mailer, env: AppConfig.Env, variant: Variant)
      ensures this.repo == repo && this.cache == cache && this.mailer == mailer
      ensures this.env == env && this.variant == variant
    {
      this.repo := repo;
      this.cache := cache;
      this.mailer := mailer;
      this.env := env;
      this.variant := variant;
    }

    /** An existing, unverified user whose verification token has expired: the case
        in which sign-up replaces the token and resends it. */
    predicate ResendsToken(email: string, now: int)
      reads repo.db
    {
      var u := repo.GetUserByEmail(email);
      u.Some? && u.value.emailVerified.None? &&
      var t := repo.GetVerificationTokenByUserId(u.value.id);
      t.Some? && t.value.expires < now
    }

    /** `signUp(email, password)` at time `now`. Every exit gives the generic message
        or the generic error. A verified user changes nothing. For an unverified user
        the flow, after possibly resending an expired token, always goes on to create
        the user again, which the unique email rejects: the result is the error. A new
        email gets a user, its settings, a verification token and an email, or, when
        the email cannot be sent, nothing at all. */
    method SignUp(email: string, password: string, draws: SignUpDraws, now: int) returns (resp: ServiceResponse<()>)
      requires Drawn(draws.resend) && Drawn(draws.newUser)
      modifies repo.db`users, repo.db`userSettings, repo.db`verificationTokens, mailer`outbox
      ensures resp == Succeed(SIGN_UP_OK, None, OK) || resp == Fail(SIGN_UP_ERROR, INTERNAL_SERVER_ERROR)
      ensures old(repo.GetUserByEmail(email)).Some? && old(repo.GetUserByEmail(email)).value.emailVerified.Some? ==>
                resp == Succeed(SIGN_UP_OK, None, OK) &&
                unchanged(repo.db) && unchanged(mailer)
      ensures old(repo.GetUserByEmail(email)).Some? && old(repo.GetUserByEmail(email)).value.emailVerified.None? ==>
                resp == Fail(SIGN_UP_ERROR, INTERNAL_SERVER_ERROR) &&
                repo.db.users == old(repo.db.users) && repo.db.userSettings == old(repo.db.userSettings)
      ensures old(ResendsToken(email, now)) && mailer.up ==>
                var u := old(repo.GetUserByEmail(email)).value;
                var expired := old(repo.GetVerificationTokenByUserId(u.id)).value;
                var token := TokenLib.GenerateToken(AppConfig.VERIFICATION_TOKEN_LENGTH, draws.resend.random);
                repo.db.verificationTokens ==
                  UpsertToken(RemoveWhere(old(repo.db.verificationTokens), (t: ExpiringToken) => t.token == expired.token),
                              ExpiringToken(draws.resend.id, u.id, token, now + AppConfig.VERIFICATION_TOKEN_MAX_AGE_MS)) &&
                mailer.outbox == old(mailer.outbox) + [Mail.Email(email, u.name, Mail.Verification, token)]
      ensures old(repo.GetUserByEmail(email)).Some? && !(old(ResendsToken(email, now)) && mailer.up) ==>
                unchanged(repo.db) && unchanged(mailer)
      ensures old(repo.GetUserByEmail(email)).None? && !mailer.up ==>
                resp == Fail(SIGN_UP_ERROR, INTERNAL_SERVER_ERROR) && unchanged(repo.db) && unchanged(mailer)
      ensures old(repo.GetUserByEmail(email)).None? && mailer.up ==>
                var user := User(draws.userId, email, NewUserName(variant, email), repo.StoredPassword(Some(password)), None, None, None);
                var token := TokenLib.GenerateToken(AppConfig.VERIFICATION_TOKEN_LENGTH, draws.newUser.random);
                resp == Succeed(SIGN_UP_OK, None, OK) &&
                repo.db.users == old(repo.db.users) + [user] &&
                repo.db.userSettings == old(repo.db.userSettings) + [UserSettings(draws.settingsId, draws.userId, "system", false)] &&
                repo.db.verificationTokens == UpsertToken(old(repo.db.verificationTokens),
                  ExpiringToken(draws.newUser.id, draws.userId, token, now + AppConfig.VERIFICATION_TOKEN_MAX_AGE_MS)) &&
                mailer.outbox == old(mailer.outbox) + [Mail.Email(email, user.name, Mail.Verification, token)]
    {
      var existingUser := repo.GetUserByEmail(email);
      if existingUser.Some? {
        if existingUser.value.emailVerified.Some? {
          return Succeed(SIGN_UP_OK, None, OK);
        }
        var existingToken := repo.GetVerificationTokenByUserId(existingUser.value.id);
        if existingToken.Some? && existingToken.value.expires < now {
          var sent := ResendVerification(existingUser.value, existingToken.value, draws.resend, now);
          if !sent {
            return Fail(SIGN_UP_ERROR, INTERNAL_SERVER_ERROR);
          }
          // the success value is the callback's, not signUp's: the flow goes on
        }
      }
      resp := CreateAndVerify(email, password, draws, now);
    }

    /** `signUp` as it is evidently meant to behave: an existing unverified user has an
        expired token replaced and resent, and then, like every existing email, gets
        the generic message instead of a second create attempt. While mail can be
        sent the response is the same for every email, so it does not reveal which
        addresses are registered. */
    method SignUpIntended(email: string, password: string, draws: SignUpDraws, now: int) returns (resp: ServiceResponse<()>)
      requires Drawn(draws.resend) && Drawn(draws.newUser)
      modifies repo.db`users, repo.db`userSettings, repo.db`verificationTokens, mailer`outbox
      ensures mailer.up ==> resp == Succeed(SIGN_UP_OK, None, OK)
      ensures !mailer.up ==>
                (resp == Succeed(SIGN_UP_OK, None, OK) <==> old(repo.GetUserByEmail(email)).Some? && !old(ResendsToken(email, now)))
      ensures old(repo.GetUserByEmail(email)).Some? ==>
                repo.db.users == old(repo.db.users) && repo.db.userSettings == old(repo.db.userSettings)
      ensures old(ResendsToken(email, now)) && mailer.up ==>
                var u := old(repo.GetUserByEmail(email)).value;
                var expired := old(repo.GetVerificationTokenByUserId(u.id)).value;
                var token := TokenLib.GenerateToken(AppConfig.VERIFICATION_TOKEN_LENGTH, draws.resend.random);
                repo.db.verificationTokens ==
                  UpsertToken(RemoveWhere(old(repo.db.verificationTokens), (t: ExpiringToken) => t.token == expired.token),
                              ExpiringToken(draws.resend.id, u.id, token, now + AppConfig.VERIFICATION_TOKEN_MAX_AGE_MS)) &&
                mailer.outbox == old(mailer.outbox) + [Mail.Email(email, u.name, Mail.Verification, token)]
      ensures old(repo.GetUserByEmail(email)).Some? && !(old(ResendsToken(email, now)) && mailer.up) ==>
                unchanged(repo.db) && unchanged(mailer)
      ensures old(repo.GetUserByEmail(email)).None? ==>
                repo.db.users == old(repo.db.users) + (if mailer.up then [User(draws.userId, email, NewUserName(variant, email),
                                                                              repo.StoredPassword(Some(password)), None, None, None)] else [])
    {
      var existingUser := repo.GetUserByEmail(email);
      if existingUser.Some? {
        if existingUser.value.emailVerified.Some? {
          return Succeed(SIGN_UP_OK, None, OK);
        }
        var existingToken := repo.GetVerificationTokenByUserId(existingUser.value.id);
        if existingToken.Some? && existingToken.value.expires < now {
          var sent := ResendVerification(existingUser.value, existingToken.value, draws.resend, now);
          if !sent {
            return Fail(SIGN_UP_ERROR, INTERNAL_SERVER_ERROR);
          }
        }
        return Succeed(SIGN_UP_OK, None, OK);
      }
      resp := CreateAndVerify(email, password, draws, now);
    }

    /** The resend transaction of `signUp`: the expired token of `user` is replaced
        by a fresh one, which is mailed; when the mail cannot be sent the transaction
        is rolled back. */
    method ResendVerification(user: User, expired: ExpiringToken, draw: TokenDraw, now: int) returns (sent: bool)
      requires Drawn(draw)
      modifies repo.db`verificationTokens, mailer`outbox
      ensures sent == mailer.up
      ensures sent ==>
                var token := TokenLib.GenerateToken(AppConfig.VERIFICATION_TOKEN_LENGTH, draw.random);
                repo.db.verificationTokens ==
                  UpsertToken(RemoveWhere(old(repo.db.verificationTokens), (t: ExpiringToken) => t.token == expired.token),
                              ExpiringToken(draw.id, user.id, token, now + AppConfig.VERIFICATION_TOKEN_MAX_AGE_MS)) &&
                mailer.outbox == old(mailer.outbox) + [Mail.Email(user.email, user.name, Mail.Verification, token)]
      ensures !sent ==> repo.db.verificationTokens == old(repo.db.verificationTokens) && mailer.outbox == old(mailer.outbox)
    {
      var saved := repo.db.verificationTokens;
      repo.DeleteVerificationTokenByToken(expired.token);
      var newToken := repo.CreateVerificationEmailToken(user.id, draw.id, draw.random, now);
      sent := mailer.Send(Mail.Email(user.email, user.name, Mail.Verification, newToken));
      if !sent {
        repo.db.verificationTokens := saved;
      }
    }

    /** The create transaction of `signUp`: a user for a new email, its settings and
        a verification token, which is mailed. An email already taken, or a mail that
        cannot be sent, leaves everything as it was and gives the generic error. */
    method CreateAndVerify(email: string, password: string, draws: SignUpDraws, now: int) returns (resp: ServiceResponse<()>)
      requires Drawn(draws.newUser)
      modifies repo.db`users, repo.db`userSettings, repo.db`verificationTokens, mailer`outbox
      ensures old(repo.GetUserByEmail(email)).Some? || !mailer.up ==>
                resp == Fail(SIGN_UP_ERROR, INTERNAL_SERVER_ERROR) &&
                repo.db.users == old(repo.db.users) && repo.db.userSettings == old(repo.db.userSettings) &&
                repo.db.verificationTokens == old(repo.db.verificationTokens) && mailer.outbox == old(mailer.outbox)
      ensures old(repo.GetUserByEmail(email)).None? && mailer.up ==>
                var user := User(draws.userId, email, NewUserName(variant, email), repo.StoredPassword(Some(password)), None, None, None);
                var token := TokenLib.GenerateToken(AppConfig.VERIFICATION_TOKEN_LENGTH, draws.newUser.random);
                resp == Succeed(SIGN_UP_OK, None, OK) &&
                repo.db.users == old(repo.db.users) + [user] &&
                repo.db.userSettings == old(repo.db.userSettings) + [UserSettings(draws.settingsId, draws.userId, "system", false)] &&
                repo.db.verificationTokens == UpsertToken(old(repo.db.verificationTokens),
                  ExpiringToken(draws.newUser.id, draws.userId, token, now + AppConfig.VERIFICATION_TOKEN_MAX_AGE_MS)) &&
                mailer.outbox == old(mailer.outbox) + [Mail.Email(email, user.name, Mail.Verification, token)]
    {
      // transaction: create the user, its token, and send it
      var savedUsers, savedSettings, savedTokens := repo.db.users, repo.db.userSettings, repo.db.verificationTokens;
      var newUser := repo.CreateUser(draws.userId, draws.settingsId, email, NewUserName(variant, email), Some(password));
      if newUser.None? {
        return Fail(SIGN_UP_ERROR, INTERNAL_SERVER_ERROR);
      }
      var verificationToken := repo.CreateVerificationEmailToken(newUser.value.id, draws.newUser.id, draws.newUser.random, now);
      var sent := mailer.Send(Mail.Email(email, newUser.value.name, Mail.Verification, verificationToken));
      if !sent {
        repo.db.users, repo.db.userSettings, repo.db.verificationTokens := savedUsers, savedSettings, savedTokens;
        return Fail(SIGN_UP_ERROR, INTERNAL_SERVER_ERROR);
      }
      resp := Succeed(SIGN_UP_OK, None, OK);
    }

    /** The first-factor checks of sign-in: the user exists, is verified, has an id
        and a stored hash, and the password verifies against it. */
    predicate PasswordAccepted(email: string, password: string)
      reads repo.db`users
    {
      var u := repo.GetUserByEmail(email);
      u.Some? && u.value.emailVerified.Some? && u.value.id != "" && Truthy(u.value.password) &&
      repo.hasher.verify(u.value.password.value, password)
    }

    predicate TwoFactorEnabled(userId: string)
      reads repo.db`userSettings
    {
      var s := repo.GetUserSettingsByUserId(userId);
      s.Some? && s.value.isTwoFactorEnabled
    }

    /** The two-factor decision: without a code, a stored confirmation for the user;
        with one, a stored token for the email equal to the code and not expired
        (expiry exactly at `now` still passes). */
    predicate TwoFactorPasses(userId: string, email: string, code: Option<string>, now: int)
      reads repo.db`twoFactorConfirmations, repo.db`twoFactorTokens
    {
      if !Truthy(code) then repo.GetTwoFactorConfirmationByUserId(userId).Some?
      else
        var t := repo.GetTwoFactorTokenByEmail(email);
        t.Some? && t.value.token == code.value && !(t.value.expires < now)
    }

    /** `validateTwoFactorCode(userId, email, code)`, with `confirmationId` the id a new
        confirmation row would get. Without a code a passing check consumes the
        confirmation; with a code it deletes the token and stores a confirmation,
        which stays. A failing check writes nothing. */
    method ValidateTwoFactorCode(userId: string, email: string, code: Option<string>, confirmationId: string, now: int)
      returns (ok: bool)
      modifies repo.db`twoFactorConfirmations, repo.db`twoFactorTokens
      ensures ok == old(TwoFactorPasses(userId, email, code, now))
      ensures !ok ==> unchanged(repo.db)
      ensures ok && !Truthy(code) ==>
                var c := old(repo.GetTwoFactorConfirmationByUserId(userId)).value;
                repo.db.twoFactorTokens == old(repo.db.twoFactorTokens) &&
                repo.db.twoFactorConfirmations == RemoveWhere(old(repo.db.twoFactorConfirmations), (x: TwoFactorConfirmation) => x.id == c.id)
      ensures ok && Truthy(code) ==>
                repo.db.twoFactorTokens == RemoveWhere(old(repo.db.twoFactorTokens), (t: TwoFactorToken) => t.token == code.value) &&
                repo.db.twoFactorConfirmations == old(repo.db.twoFactorConfirmations) + [TwoFactorConfirmation(confirmationId, userId)]
    {
      if !Truthy(code) {
        var twoFactorConfirmation := repo.GetTwoFactorConfirmationByUserId(userId);
        if twoFactorConfirmation.None? {
          return false;
        }
        repo.DeleteTwoFactorConfirmation(twoFactorConfirmation.value.id);
        return true;
      }
      var twoFactorToken := repo.GetTwoFactorTokenByEmail(email);
      if twoFactorToken.None? || twoFactorToken.value.token != code.value || twoFactorToken.value.expires < now {
        return false;
      }
      repo.DeleteTwoFactorTokenByToken(twoFactorToken.value.token);
      repo.CreateTwoFactorConfirmation(userId, confirmationId);
      ok := true;
    }

    /** `signIn(email, password, code)` at time `now`, with `sessionId` the fresh
        session id and `confirmationId` the id a new confirmation would get. Every
        rejection is the same 401 "Invalid credentials" with an empty refresh token:
        unknown email, unverified email, no id or hash, wrong password, failed
        two-factor check. Acceptance issues a refresh token for a new session and an
        access token for the same session. Only the two-factor step writes. */
    method SignIn(email: string, password: string, code: Option<string>, sessionId: string, confirmationId: string, now: int)
      returns (result: SignInResult)
      modifies repo.db`twoFactorConfirmations, repo.db`twoFactorTokens
      ensures var u := old(repo.GetUserByEmail(email));
              result.response.success <==>
                old(PasswordAccepted(email, password)) &&
                (old(TwoFactorEnabled(u.value.id)) ==> old(TwoFactorPasses(u.value.id, email, code, now)))
      ensures !result.response.success ==>
                result == SignInResult(TokenLib.Blank, Fail(INVALID_CREDENTIALS, UNAUTHORIZED))
      ensures result.response.success ==>
                var u := old(repo.GetUserByEmail(email)).value;
                result.refreshToken == TokenLib.GenerateRefreshToken(u.id, now, sessionId, env).token &&
                result.response == Succeed(SIGNED_IN, Some(SignInData(
                  TokenLib.GenerateAccessToken(TokenLib.AccessClaims(u.id, u.email, u.id, sessionId), now, env), u.id)), OK)
      ensures !old(PasswordAccepted(email, password)) || !old(TwoFactorEnabled(repo.GetUserByEmail(email).value.id)) ==>
                unchanged(repo.db)
      ensures old(PasswordAccepted(email, password)) && old(TwoFactorEnabled(repo.GetUserByEmail(email).value.id)) ==>
                var u := old(repo.GetUserByEmail(email)).value;
                (!old(TwoFactorPasses(u.id, email, code, now)) ==> unchanged(repo.db)) &&
                (old(TwoFactorPasses(u.id, email, code, now)) && !Truthy(code) ==>
                   var c := old(repo.GetTwoFactorConfirmationByUserId(u.id)).value;
                   repo.db.twoFactorTokens == old(repo.db.twoFactorTokens) &&
                   repo.db.twoFactorConfirmations == RemoveWhere(old(repo.db.twoFactorConfirmations), (x: TwoFactorConfirmation) => x.id == c.id)) &&
                (old(TwoFactorPasses(u.id, email, code, now)) && Truthy(code) ==>
                   repo.db.twoFactorTokens == RemoveWhere(old(repo.db.twoFactorTokens), (t: TwoFactorToken) => t.token == code.value) &&
                   repo.db.twoFactorConfirmations == old(repo.db.twoFactorConfirmations) + [TwoFactorConfirmation(confirmationId, u.id)])
    {
      var user := repo.GetUserByEmail(email);
      if user.None? || user.value.emailVerified.None? || user.value.id == "" || !Truthy(user.value.password) {
        return SignInResult(TokenLib.Blank, Fail(INVALID_CREDENTIALS, UNAUTHORIZED));
      }
      var isPasswordValid := repo.hasher.verify(user.value.password.value, password);
      if !isPasswordValid {
        return SignInResult(TokenLib.Blank, Fail(INVALID_CREDENTIALS, UNAUTHORIZED));
      }
      var userSettings := repo.GetUserSettingsByUserId(user.value.id);
      if userSettings.Some? && userSettings.value.isTwoFactorEnabled {
        var isValidTwoFactor := ValidateTwoFactorCode(user.value.id, email, code, confirmationId, now);
        if !isValidTwoFactor {
          return SignInResult(TokenLib.Blank, Fail(INVALID_CREDENTIALS, UNAUTHORIZED));
        }
      }
      var issue := TokenLib.GenerateRefreshToken(user.value.id, now, sessionId, env);
      var accessToken := TokenLib.GenerateAccessToken(TokenLib.AccessClaims(user.value.id, user.value.email, user.value.id, issue.sessionId), now, env);
      result := SignInResult(issue.token, Succeed(SIGNED_IN, Some(SignInData(accessToken, user.value.id)), OK));
    }

    /** `signOut(refreshToken)` at time `now`: a token that verifies has its session
        blacklisted for the refresh lifetime (plus the denylist's grace); a token that
        does not verify, or a cache error, gives the 500 failure. */
    method SignOut(refreshToken: TokenLib.TokenString, now: int) returns (resp: ServiceResponse<()>)
      modifies cache`entries
      ensures var p := TokenLib.Verify(refreshToken, env.refreshTokenSecret, now);
              (resp.success <==> p.Some? && cache.up) &&
              (resp.success ==>
                 resp == Succeed(SIGNED_OUT, None, OK) &&
                 cache.entries == Added(old(cache.entries), TokenLib.SessionIdText(p.value), AppConfig.REFRESH_TOKEN_EXPIRES_IN_MS, now)) &&
              (!resp.success ==>
                 resp == Fail(SIGN_OUT_ERROR, INTERNAL_SERVER_ERROR) && cache.entries == old(cache.entries))
    {
      var payload := TokenLib.Verify(refreshToken, env.refreshTokenSecret, now);
      if payload.None? {
        return Fail(SIGN_OUT_ERROR, INTERNAL_SERVER_ERROR);
      }
      var added := AddTokenToBlacklist(cache, TokenLib.SessionIdText(payload.value), AppConfig.REFRESH_TOKEN_EXPIRES_IN_MS, now);
      if !added {
        return Fail(SIGN_OUT_ERROR, INTERNAL_SERVER_ERROR);
      }
      resp := Succeed(SIGNED_OUT, None, OK);
    }

    /** `verifyEmail(token)` at time `now`: a missing token or one whose expiry is
        before `now` gives 400 "Invalid token" and writes nothing; otherwise the
        token's user is marked verified and the token deleted, so it cannot be used
        again. */
    method VerifyEmail(token: string, now: int) returns (resp: ServiceResponse<()>)
      modifies repo.db`users, repo.db`verificationTokens
      ensures var row := old(repo.GetVerificationTokenByToken(token));
              (row.None? || row.value.expires < now ==>
                 resp == Fail(INVALID_TOKEN, BAD_REQUEST) && unchanged(repo.db)) &&
              (row.Some? && !(row.value.expires < now) ==>
                 resp == Succeed(EMAIL_VERIFIED, None, OK) &&
                 repo.db.users == UpdateWhere(old(repo.db.users), (u: User) => u.id == row.value.userId,
                                              (u: User) => u.(emailVerified := Some(now))) &&
                 repo.db.verificationTokens == RemoveWhere(old(repo.db.verificationTokens), (t: ExpiringToken) => t.token == token))
      ensures resp.success ==> repo.GetVerificationTokenByToken(token).None?
    {
      var existingToken := repo.GetVerificationTokenByToken(token);
      if existingToken.None? || existingToken.value.expires < now {
        return Fail(INVALID_TOKEN, BAD_REQUEST);
      }
      repo.UpdateUserEmailVerified(existingToken.value.userId, now);
      repo.DeleteVerificationTokenByToken(token);
      resp := Succeed(EMAIL_VERIFIED, None, OK);
    }

    /** `forgotPassword(email)` at time `now`: the same OK message whether or not the
        account exists. Only a verified user with an id gets a reset token; the token is
        stored before the email is sent and stays when sending fails, which gives the
        500 failure. */
    method ForgotPassword(email: string, draw: TokenDraw, now: int) returns (resp: ServiceResponse<()>)
      requires Drawn(draw)
      modifies repo.db`resetPasswordTokens, mailer`outbox
      ensures resp == Succeed(FORGOT_OK, None, OK) || resp == Fail(FORGOT_ERROR, INTERNAL_SERVER_ERROR)
      ensures var u := old(repo.GetUserByEmail(email));
              (u.None? || u.value.emailVerified.None? || u.value.id == "" ==>
                 resp == Succeed(FORGOT_OK, None, OK) && unchanged(repo.db) && unchanged(mailer)) &&
              (u.Some? && u.value.emailVerified.Some? && u.value.id != "" ==>
                 var token := TokenLib.GenerateToken(AppConfig.RESET_PASSWORD_TOKEN_LENGTH, draw.random);
                 repo.db.resetPasswordTokens == UpsertToken(old(repo.db.resetPasswordTokens),
                   ExpiringToken(draw.id, u.value.id, token, now + AppConfig.RESET_PASSWORD_TOKEN_MAX_AGE_MS)) &&
                 (mailer.up ==>
                    resp == Succeed(FORGOT_OK, None, OK) &&
                    mailer.outbox == old(mailer.outbox) + [Mail.Email(email, u.value.name, Mail.PasswordReset, token)]) &&
                 (!mailer.up ==> resp == Fail(FORGOT_ERROR, INTERNAL_SERVER_ERROR) && mailer.outbox == old(mailer.outbox)))
    {
      var user := repo.GetUserByEmail(email);
      if user.None? || user.value.emailVerified.None? || user.value.id == "" {
        return Succeed(FORGOT_OK, None, OK);
      }
      var resetPasswordToken := repo.CreateResetPasswordToken(user.value.id, draw.id, draw.random, now);
      var sent := mailer.Send(Mail.Email(email, user.value.name, Mail.PasswordReset, resetPasswordToken));
      if !sent {
        return Fail(FORGOT_ERROR, INTERNAL_SERVER_ERROR);
      }
      resp := Succeed(FORGOT_OK, None, OK);
    }

    /** `resetPassword(token, password)` at time `now`: like email verification, but
        stores the hash of the new password for the token's user. */
    method ResetPassword(token: string, password: string, now: int) returns (resp: ServiceResponse<()>)
      modifies repo.db`users, repo.db`resetPasswordTokens
      ensures var row := old(repo.GetResetPasswordTokenByToken(token));
              (row.None? || row.value.expires < now ==>
                 resp == Fail(INVALID_TOKEN, BAD_REQUEST) && unchanged(repo.db)) &&
              (row.Some? && !(row.value.expires < now) ==>
                 resp == Succeed(PASSWORD_RESET, None, OK) &&
                 repo.db.users == UpdateWhere(old(repo.db.users), (u: User) => u.id == row.value.userId,
                                              (u: User) => u.(password := Some(repo.hasher.hash(password)))) &&
                 repo.db.resetPasswordTokens == RemoveWhere(old(repo.db.resetPasswordTokens), (t: ExpiringToken) => t.token == token))
      ensures resp.success ==> repo.GetResetPasswordTokenByToken(token).None?
    {
      var existingToken := repo.GetResetPasswordTokenByToken(token);
      if existingToken.None? || existingToken.value.expires < now {
        return Fail(INVALID_TOKEN, BAD_REQUEST);
      }
      repo.UpdateUserPassword(existingToken.value.userId, password);
      repo.DeleteResetPasswordTokenByToken(token);
      resp := Succeed(PASSWORD_RESET, None, OK);
    }

    /** `refreshToken(token)` at time `now`, with `newSessionId` the fresh session id.
        An empty token is "Refresh token not found"; a blacklisted session is "Token
        has been revoked"; an unknown user is "User not found"; a token that does not
        verify or a cache error is "Invalid refresh token". All are 401 with an empty
        refresh token and write nothing. Success returns tokens for a new session and
        blacklists the old one. */
    method RefreshToken(refreshToken: TokenLib.TokenString, newSessionId: string, now: int) returns (result: RefreshResult)
      modifies cache`entries
      ensures !result.response.success ==>
                result.refreshToken == TokenLib.Blank && result.response.statusCode == UNAUTHORIZED &&
                result.response.responseObject.None? && cache.entries == old(cache.entries)
      ensures refreshToken.Blank? ==> result.response == Fail(REFRESH_NOT_FOUND, UNAUTHORIZED)
      ensures var p := TokenLib.Verify(refreshToken, env.refreshTokenSecret, now);
              !refreshToken.Blank? && (p.None? || !cache.up) ==> result.response == Fail(REFRESH_INVALID, UNAUTHORIZED)
      ensures var p := TokenLib.Verify(refreshToken, env.refreshTokenSecret, now);
              p.Some? && old(CheckTokenBlacklist(cache, TokenLib.SessionIdText(p.value), now)) == Some(true) ==>
                result.response == Fail(REFRESH_REVOKED, UNAUTHORIZED)
      ensures var p := TokenLib.Verify(refreshToken, env.refreshTokenSecret, now);
              p.Some? && old(CheckTokenBlacklist(cache, TokenLib.SessionIdText(p.value), now)) == Some(false) &&
              repo.GetUserById(p.value.sub).None? ==>
                result.response == Fail(REFRESH_NO_USER, UNAUTHORIZED)
      ensures result.response.success <==>
                var p := TokenLib.Verify(refreshToken, env.refreshTokenSecret, now);
                p.Some? && old(CheckTokenBlacklist(cache, TokenLib.SessionIdText(p.value), now)) == Some(false) &&
                repo.GetUserById(p.value.sub).Some?
      ensures result.response.success ==>
                var p := TokenLib.Verify(refreshToken, env.refreshTokenSecret, now).value;
                var u := repo.GetUserById(p.sub).value;
                result.refreshToken == TokenLib.GenerateRefreshToken(u.id, now, newSessionId, env).token &&
                result.response == Succeed(REFRESHED, Some(RefreshData(
                  TokenLib.GenerateAccessToken(TokenLib.AccessClaims(u.id, u.email, u.id, newSessionId), now, env), u.id)), OK) &&
                cache.entries == Added(old(cache.entries), TokenLib.SessionIdText(p), AppConfig.REFRESH_TOKEN_EXPIRES_IN_MS, now)
    {
      if refreshToken.Blank? {
        return RefreshResult(TokenLib.Blank, Fail(REFRESH_NOT_FOUND, UNAUTHORIZED));
      }
      var payload := TokenLib.Verify(refreshToken, env.refreshTokenSecret, now);
      if payload.None? {
        return RefreshResult(TokenLib.Blank, Fail(REFRESH_INVALID, UNAUTHORIZED));
      }
      var isBlacklisted := CheckTokenBlacklist(cache, TokenLib.SessionIdText(payload.value), now);
      if isBlacklisted.None? {
        return RefreshResult(TokenLib.Blank, Fail(REFRESH_INVALID, UNAUTHORIZED));
      }
      if isBlacklisted.value {
        return RefreshResult(TokenLib.Blank, Fail(REFRESH_REVOKED, UNAUTHORIZED));
      }
      var user := repo.GetUserById(payload.value.sub);
      if user.None? {
        return RefreshResult(TokenLib.Blank, Fail(REFRESH_NO_USER, UNAUTHORIZED));
      }
      var issue := TokenLib.GenerateRefreshToken(user.value.id, now, newSessionId, env);
      var accessToken := TokenLib.GenerateAccessToken(TokenLib.AccessClaims(user.value.id, user.value.email, user.value.id, issue.sessionId), now, env);
      var added := AddTokenToBlacklist(cache, TokenLib.SessionIdText(payload.value), AppConfig.REFRESH_TOKEN_EXPIRES_IN_MS, now);
      if !added {
        return RefreshResult(TokenLib.Blank, Fail(REFRESH_INVALID, UNAUTHORIZED));
      }
      result := RefreshResult(issue.token, Succeed(REFRESHED, Some(RefreshData(accessToken, user.value.id)), OK));
    }
  }
}
