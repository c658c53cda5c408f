/** Sequences of calls a client makes against the authentication flows, and what the
    flows' contracts guarantee about them: tokens are single-use, a signed-out or
    rotated session cannot be refreshed again while its denylist entry lasts, and the
    two-factor confirmation left by a code is consumed by the next sign-in. */
module AuthScenarios {
  import opened Common
  import opened Tables
  import TokenLib
  import AppConfig
  import opened TokenBlacklist
  import opened AuthRepo
  import opened AuthFlows

  /** Verifying the same email token twice: the second attempt is "Invalid token". */
  method VerifyEmailTwice(svc: AuthService, token: string, now: int, later: int)
    returns (first: ServiceResponse<()>, second: ServiceResponse<()>)
    modifies svc.repo.db`users, svc.repo.db`verificationTokens
    ensures first.success ==> second == Fail(INVALID_TOKEN, BAD_REQUEST)
  {
    first := svc.VerifyEmail(token, now);
    second := svc.VerifyEmail(token, later);
  }

  /** Resetting a password twice with the same token: the second attempt fails and
      leaves the first new password in place. */
  method ResetPasswordTwice(svc: AuthService, token: string, p1: string, p2: string, now: int, later: int)
    returns (first: ServiceResponse<()>, second: ServiceResponse<()>)
    modifies svc.repo.db`users, svc.repo.db`resetPasswordTokens
    ensures first.success ==> second == Fail(INVALID_TOKEN, BAD_REQUEST)
    ensures first.success ==> old(svc.repo.GetResetPasswordTokenByToken(token)).Some?
    ensures first.success ==>
              var row := old(svc.repo.GetResetPasswordTokenByToken(token)).value;
              svc.repo.db.users == UpdateWhere(old(svc.repo.db.users), (u: User) => u.id == row.userId,
                                               (u: User) => u.(password := Some(svc.repo.hasher.hash(p1))))
  {
    first := svc.ResetPassword(token, p1, now);
    second := svc.ResetPassword(token, p2, later);
  }

  /** Refreshing with a token, then presenting the same token again within the
      denylist's lifetime: the replay is refused, whatever the reason given. */
  method RefreshThenReplay(svc: AuthService, token: TokenLib.TokenString, s1: string, s2: string, now: int, later: int)
    returns (first: RefreshResult, second: RefreshResult)
    requires now <= later < now + AppConfig.REFRESH_TOKEN_EXPIRES_IN_MS + GRACE_MS
    modifies svc.cache`entries
    ensures first.response.success ==> !second.response.success && second.refreshToken == TokenLib.Blank
    ensures first.response.success && TokenLib.Verify(token, svc.env.refreshTokenSecret, later).Some? ==>
              second.response == Fail(REFRESH_REVOKED, UNAUTHORIZED)
  {
    first := svc.RefreshToken(token, s1, now);
    if first.response.success {
      var p := TokenLib.Verify(token, svc.env.refreshTokenSecret, now).value;
      AddedIsLive(old(svc.cache.entries), TokenLib.SessionIdText(p), AppConfig.REFRESH_TOKEN_EXPIRES_IN_MS, now, later);
    }
    second := svc.RefreshToken(token, s2, later);
  }

  /** Signing out, then trying to refresh with the same token within the denylist's
      lifetime: refused. */
  method SignOutThenRefresh(svc: AuthService, token: TokenLib.TokenString, s: string, now: int, later: int)
    returns (out: ServiceResponse<()>, refreshed: RefreshResult)
    requires now <= later < now + AppConfig.REFRESH_TOKEN_EXPIRES_IN_MS + GRACE_MS
    modifies svc.cache`entries
    ensures out.success ==> !refreshed.response.success
  {
    out := svc.SignOut(token, now);
    if out.success {
      var p := TokenLib.Verify(token, svc.env.refreshTokenSecret, now).value;
      AddedIsLive(old(svc.cache.entries), TokenLib.SessionIdText(p), AppConfig.REFRESH_TOKEN_EXPIRES_IN_MS, now, later);
    }
    refreshed := svc.RefreshToken(token, s, later);
  }

  /** Signing out twice with the same token: the second call succeeds too (the denylist
      write is an overwrite), and the entry is the one of the second call. */
  method SignOutTwice(svc: AuthService, token: TokenLib.TokenString, now: int, later: int)
    returns (first: ServiceResponse<()>, second: ServiceResponse<()>)
    modifies svc.cache`entries
    ensures first.success && TokenLib.Verify(token, svc.env.refreshTokenSecret, later).Some? ==> second.success
    ensures second.success ==> TokenLib.Verify(token, svc.env.refreshTokenSecret, later).Some?
    ensures second.success ==>
              svc.cache.entries == Added(old(svc.cache.entries),
                TokenLib.SessionIdText(TokenLib.Verify(token, svc.env.refreshTokenSecret, later).value),
                AppConfig.REFRESH_TOKEN_EXPIRES_IN_MS, later)
  {
    first := svc.SignOut(token, now);
    second := svc.SignOut(token, later);
    if first.success && second.success {
      var p := TokenLib.Verify(token, svc.env.refreshTokenSecret, later).value;
      assert TokenLib.Verify(token, svc.env.refreshTokenSecret, now).value == p;
      AddedTwice(old(svc.cache.entries), TokenLib.SessionIdText(p), AppConfig.REFRESH_TOKEN_EXPIRES_IN_MS, now,
                 AppConfig.REFRESH_TOKEN_EXPIRES_IN_MS, later);
    }
  }

  /** A confirmation appended for a user who held none, under an id no row uses, is
      the one a lookup for that user finds, and deleting it by id restores the table. */
  lemma {:induction false} ConfirmationAddedThenConsumed(rows: seq<TwoFactorConfirmation>, c: TwoFactorConfirmation)
    requires forall i :: 0 <= i < |rows| ==> rows[i].userId != c.userId && rows[i].id != c.id
    ensures FirstWhere(rows + [c], (x: TwoFactorConfirmation) => x.userId == c.userId) == Some(c)
    ensures RemoveWhere(rows + [c], (x: TwoFactorConfirmation) => x.id == c.id) == rows
  {
    assert (rows + [c])[|rows|] == c;
    assert forall i :: 0 <= i < |rows| ==> (rows + [c])[i] == rows[i];
    RemoveWhereConcat(rows, [c], (x: TwoFactorConfirmation) => x.id == c.id);
    assert RemoveWhere([c], (x: TwoFactorConfirmation) => x.id == c.id) == [];
  }

  /** With two-factor authentication on, a sign-in with the right code leaves a
      confirmation; a following sign-in without a code is accepted, by consuming it.
      For a user who held no confirmation before, under a confirmation id no row uses,
      the confirmations are back as they were afterwards. */
  method TwoFactorCodeThenNoCode(svc: AuthService, email: string, password: string, code: string,
                                 s1: string, s2: string, c1: string, c2: string, now: int)
    returns (first: SignInResult, second: SignInResult)
    requires code != ""
    modifies svc.repo.db`twoFactorConfirmations, svc.repo.db`twoFactorTokens
    ensures first.response.success && old(svc.repo.GetUserByEmail(email)).Some? &&
            old(svc.TwoFactorEnabled(svc.repo.GetUserByEmail(email).value.id)) ==>
              second.response.success
    ensures first.response.success && old(svc.repo.GetUserByEmail(email)).Some? &&
            old(svc.TwoFactorEnabled(svc.repo.GetUserByEmail(email).value.id)) &&
            old(svc.repo.GetTwoFactorConfirmationByUserId(svc.repo.GetUserByEmail(email).value.id)).None? &&
            (forall i :: 0 <= i < |old(svc.repo.db.twoFactorConfirmations)| ==> old(svc.repo.db.twoFactorConfirmations)[i].id != c1) ==>
              svc.repo.db.twoFactorConfirmations == old(svc.repo.db.twoFactorConfirmations)
  {
    var confs0 := svc.repo.db.twoFactorConfirmations;
    var user := svc.repo.GetUserByEmail(email);
    var enabled := user.Some? && svc.TwoFactorEnabled(user.value.id);
    var fresh1 := enabled && svc.repo.GetTwoFactorConfirmationByUserId(user.value.id).None? &&
                        (forall i :: 0 <= i < |confs0| ==> confs0[i].id != c1);
    first := svc.SignIn(email, password, Some(code), s1, c1, now);
    if !(first.response.success && enabled) {
      second := svc.SignIn(email, password, None, s2, c2, now);
      return;
    }
    var c := TwoFactorConfirmation(c1, user.value.id);
    assert svc.repo.db.twoFactorConfirmations == confs0 + [c];
    assert svc.repo.GetUserByEmail(email) == user;
    assert svc.PasswordAccepted(email, password);
    if !fresh1 {
      assert (confs0 + [c])[|confs0|] == c;
      assert svc.TwoFactorPasses(user.value.id, email, None, now);
      second := svc.SignIn(email, password, None, s2, c2, now);
      return;
    }
    ConfirmationAddedThenConsumed(confs0, c);
    assert svc.repo.GetTwoFactorConfirmationByUserId(user.value.id) == Some(c);
    assert svc.TwoFactorEnabled(user.value.id) && svc.TwoFactorPasses(user.value.id, email, None, now);
    second := svc.SignIn(email, password, None, s2, c2, now);
    assert svc.repo.db.twoFactorConfirmations == RemoveWhere(confs0 + [c], (x: TwoFactorConfirmation) => x.id == c.id);
  }

  /** A code buys one code-less sign-in only: for a user who held no confirmation,
      after a sign-in with the right code and one without, a third sign-in without a
      code is refused. */
  method TwoFactorCodeSpentOnce(svc: AuthService, email: string, password: string, code: string,
                                s1: string, s2: string, s3: string, c1: string, c2: string, c3: string, now: int)
    returns (first: SignInResult, second: SignInResult, third: SignInResult)
    requires code != ""
    modifies svc.repo.db`twoFactorConfirmations, svc.repo.db`twoFactorTokens
    ensures first.response.success && old(svc.repo.GetUserByEmail(email)).Some? &&
            old(svc.TwoFactorEnabled(svc.repo.GetUserByEmail(email).value.id)) &&
            old(svc.repo.GetTwoFactorConfirmationByUserId(svc.repo.GetUserByEmail(email).value.id)).None? &&
            (forall i :: 0 <= i < |old(svc.repo.db.twoFactorConfirmations)| ==> old(svc.repo.db.twoFactorConfirmations)[i].id != c1) ==>
              second.response.success && !third.response.success
  {
    first, second := TwoFactorCodeThenNoCode(svc, email, password, code, s1, s2, c1, c2, now);
    third := svc.SignIn(email, password, None, s3, c3, now);
  }

  /** As written, revoking a refresh token does not end it: the denylist entry for its
      session lives seven days and two minutes from the revocation, while the token
      verifies for about a thousand weeks. Once the entry's TTL has elapsed the token
      verifies again and its session no longer reads as revoked, so it can be
      refreshed anew. */
  lemma RevokedRefreshTokenRevives(userId: string, sessionId: string, env: AppConfig.Env,
                                   entries: map<string, CacheEntry>, issuedAt: int, t0: int)
    requires issuedAt <= t0 <= issuedAt + AppConfig.REFRESH_TOKEN_EXPIRES_IN_MS
    ensures var token := TokenLib.GenerateRefreshToken(userId, issuedAt, sessionId, env).token;
            var t := t0 + AppConfig.REFRESH_TOKEN_EXPIRES_IN_MS + GRACE_MS;
            TokenLib.Verify(token, env.refreshTokenSecret, t) == Some(TokenLib.RefreshClaims(userId, sessionId)) &&
            !Live(Added(entries, sessionId, AppConfig.REFRESH_TOKEN_EXPIRES_IN_MS, t0), BlacklistKey(sessionId), t)
  {
    var t := t0 + AppConfig.REFRESH_TOKEN_EXPIRES_IN_MS + GRACE_MS;
    TokenLib.RefreshTokenOutlivesCookie(userId, issuedAt, sessionId, env, t);
    assert t / 1000 <= issuedAt / 1000 + 2 * (AppConfig.REFRESH_TOKEN_EXPIRES_IN_MS / 1000) + GRACE_MS / 1000 + 1;
    AddedIsLive(entries, sessionId, AppConfig.REFRESH_TOKEN_EXPIRES_IN_MS, t0, t);
  }

  /** With the intended refresh token, a revoked session stays revoked: at every
      moment after the revocation either the denylist still holds its session or the
      token no longer verifies. */
  lemma RevokedRefreshTokenStaysRevoked(userId: string, sessionId: string, env: AppConfig.Env,
                                        entries: map<string, CacheEntry>, issuedAt: int, t0: int, t: int)
    requires issuedAt <= t0 <= t
    ensures var token := TokenLib.GenerateRefreshTokenIntended(userId, issuedAt, sessionId, env).token;
            TokenLib.Verify(token, env.refreshTokenSecret, t).None? ||
            Live(Added(entries, sessionId, AppConfig.REFRESH_TOKEN_EXPIRES_IN_MS, t0), BlacklistKey(sessionId), t)
  {
    AddedIsLive(entries, sessionId, AppConfig.REFRESH_TOKEN_EXPIRES_IN_MS, t0, t);
    TokenLib.RefreshTokenIntendedLifetime(userId, issuedAt, sessionId, env, t);
  }
}
