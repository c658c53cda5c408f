/** The credential store (`modules/auth/authRepository.ts`): users with their
    settings, email-verification and reset-password tokens, two-factor tokens and
    two-factor confirmations. Lookups read the tables; the other operations insert,
    update or delete rows. */
module AuthRepo {
  import opened Common
  import opened Tables
  import TokenLib
  import AppConfig
  import Password

  /** The row an upsert targeting the `id` column leaves: a row with the same id gets
      the new token and expiry (its user is kept), otherwise the row is appended. */
  function UpsertToken(rows: seq<ExpiringToken>, row: ExpiringToken): (r: seq<ExpiringToken>) {
    if exists i :: 0 <= i < |rows| && rows[i].id == row.id then
      UpdateWhere(rows, (t: ExpiringToken) => t.id == row.id, (t: ExpiringToken) => t.(token := row.token, expires := row.expires))
    else rows + [row]
  }

  /** A token stored under a new id is appended and every earlier token, including
      earlier tokens of the same user, stays as it was. Under an existing id the row
      keeps its id and user and takes the new token and expiry; nothing else changes. */
  lemma UpsertTokenEffect(rows: seq<ExpiringToken>, row: ExpiringToken)
    ensures (forall i :: 0 <= i < |rows| ==> rows[i].id != row.id) ==> UpsertToken(rows, row) == rows + [row]
    ensures (exists i :: 0 <= i < |rows| && rows[i].id == row.id) ==>
              |UpsertToken(rows, row)| == |rows| &&
              forall i :: 0 <= i < |rows| ==>
                UpsertToken(rows, row)[i] == (if rows[i].id == row.id
                                             then ExpiringToken(row.id, rows[i].userId, row.token, row.expires)
                                             else rows[i])
  {
  }

  /** Some row of `UpsertToken(rows, row)` carries the new token, id and expiry. */
  lemma UpsertTokenStores(rows: seq<ExpiringToken>, row: ExpiringToken)
    ensures exists i :: 0 <= i < |UpsertToken(rows, row)| &&
              UpsertToken(rows, row)[i].id == row.id &&
              UpsertToken(rows, row)[i].token == row.token &&
              UpsertToken(rows, row)[i].expires == row.expires
  {
    var r := UpsertToken(rows, row);
    if i :| 0 <= i < |rows| && rows[i].id == row.id {
      assert r[i].token == row.token;
    } else {
      assert r[|rows|] == row;
    }
  }

  class AuthRepository {
    const db: Database
    const hasher: Password.Hasher

    constructor (db: Database, hasher: Password.Hasher)
      ensures this.db == db && this.hasher == hasher
    {
      this.db := db;
      this.hasher := hasher;
    }

    /** `getUserByEmail`: the first user with that email. */
    function GetUserByEmail(email: string): (r: Option<User>)
      reads db`users
      ensures r.Some? ==> r.value in db.users && r.value.email == email
      ensures r.None? <==> forall i :: 0 <= i < |db.users| ==> db.users[i].email != email
    {
      FirstWhere(db.users, (u: User) => u.email == email)
    }

    /** `getUserById`: the first user with that id. */
    function GetUserById(id: string): (r: Option<User>)
      reads db`users
      ensures r.Some? ==> r.value in db.users && r.value.id == id
      ensures r.None? <==> forall i :: 0 <= i < |db.users| ==> db.users[i].id != id
    {
      FirstWhere(db.users, (u: User) => u.id == id)
    }

    /** `getVerificationTokenByUserId`: the first verification token of that user. */
    function GetVerificationTokenByUserId(userId: string): (r: Option<ExpiringToken>)
      reads db`verificationTokens
      ensures r.Some? ==> r.value in db.verificationTokens && r.value.userId == userId
      ensures r.None? <==> forall i :: 0 <= i < |db.verificationTokens| ==> db.verificationTokens[i].userId != userId
    {
      FirstWhere(db.verificationTokens, (t: ExpiringToken) => t.userId == userId)
    }

    /** `getVerificationTokenByToken`: the first verification row holding that token. */
    function GetVerificationTokenByToken(token: string): (r: Option<ExpiringToken>)
      reads db`verificationTokens
      ensures r.Some? ==> r.value in db.verificationTokens && r.value.token == token
      ensures r.None? <==> forall i :: 0 <= i < |db.verificationTokens| ==> db.verificationTokens[i].token != token
    {
      FirstWhere(db.verificationTokens, (t: ExpiringToken) => t.token == token)
    }

    /** `getTwoFactorTokenByEmail`: the first two-factor token issued for that email. */
    function GetTwoFactorTokenByEmail(email: string): (r: Option<TwoFactorToken>)
      reads db`twoFactorTokens
      ensures r.Some? ==> r.value in db.twoFactorTokens && r.value.email == email
      ensures r.None? <==> forall i :: 0 <= i < |db.twoFactorTokens| ==> db.twoFactorTokens[i].email != email
    {
      FirstWhere(db.twoFactorTokens, (t: TwoFactorToken) => t.email == email)
    }

    /** `getUserSettingsByUserId`: the first settings row of that user. */
    function GetUserSettingsByUserId(userId: string): (r: Option<UserSettings>)
      reads db`userSettings
      ensures r.Some? ==> r.value in db.userSettings && r.value.userId == userId
      ensures r.None? <==> forall i :: 0 <= i < |db.userSettings| ==> db.userSettings[i].userId != userId
    {
      FirstWhere(db.userSettings, (s: UserSettings) => s.userId == userId)
    }

    /** `getResetPasswordTokenByToken`: the first reset row holding that token. */
    function GetResetPasswordTokenByToken(token: string): (r: Option<ExpiringToken>)
      reads db`resetPasswordTokens
      ensures r.Some? ==> r.value in db.resetPasswordTokens && r.value.token == token
      ensures r.None? <==> forall i :: 0 <= i < |db.resetPasswordTokens| ==> db.resetPasswordTokens[i].token != token
    {
      FirstWhere(db.resetPasswordTokens, (t: ExpiringToken) => t.token == token)
    }

    /** `getTwoFactorConfirmationByUserId`: the first confirmation of that user. */
    function GetTwoFactorConfirmationByUserId(userId: string): (r: Option<TwoFactorConfirmation>)
      reads db`twoFactorConfirmations
      ensures r.Some? ==> r.value in db.twoFactorConfirmations && r.value.userId == userId
      ensures r.None? <==> forall i :: 0 <= i < |db.twoFactorConfirmations| ==> db.twoFactorConfirmations[i].userId != userId
    {
      FirstWhere(db.twoFactorConfirmations, (c: TwoFactorConfirmation) => c.userId == userId)
    }

    /** `deleteVerificationTokenByToken`: removes exactly the rows holding `token`. */
    method DeleteVerificationTokenByToken(token: string)
      modifies db`verificationTokens
      ensures db.verificationTokens == RemoveWhere(old(db.verificationTokens), (t: ExpiringToken) => t.token == token)
      ensures forall i :: 0 <= i < |db.verificationTokens| ==> db.verificationTokens[i].token != token
    {
      db.verificationTokens := RemoveWhere(db.verificationTokens, (t: ExpiringToken) => t.token == token);
    }

    /** `deleteResetPasswordTokenByToken`: removes exactly the rows holding `token`. */
    method DeleteResetPasswordTokenByToken(token: string)
      modifies db`resetPasswordTokens
      ensures db.resetPasswordTokens == RemoveWhere(old(db.resetPasswordTokens), (t: ExpiringToken) => t.token == token)
      ensures forall i :: 0 <= i < |db.resetPasswordTokens| ==> db.resetPasswordTokens[i].token != token
    {
      db.resetPasswordTokens := RemoveWhere(db.resetPasswordTokens, (t: ExpiringToken) => t.token == token);
    }

    /** `deleteTwoFactorTokenByToken`: removes exactly the rows holding `token`. */
    method DeleteTwoFactorTokenByToken(token: string)
      modifies db`twoFactorTokens
      ensures db.twoFactorTokens == RemoveWhere(old(db.twoFactorTokens), (t: TwoFactorToken) => t.token == token)
      ensures forall i :: 0 <= i < |db.twoFactorTokens| ==> db.twoFactorTokens[i].token != token
    {
      db.twoFactorTokens := RemoveWhere(db.twoFactorTokens, (t: TwoFactorToken) => t.token == token);
    }

    /** `deleteTwoFactorConfirmation`: removes the confirmation rows with that id. */
    method DeleteTwoFactorConfirmation(id: string)
      modifies db`twoFactorConfirmations
      ensures db.twoFactorConfirmations == RemoveWhere(old(db.twoFactorConfirmations), (c: TwoFactorConfirmation) => c.id == id)
      ensures forall i :: 0 <= i < |db.twoFactorConfirmations| ==> db.twoFactorConfirmations[i].id != id
    {
      db.twoFactorConfirmations := RemoveWhere(db.twoFactorConfirmations, (c: TwoFactorConfirmation) => c.id == id);
    }

    /** `createVerificationEmailToken(userId)` at time `now`, with `random` the bytes
        drawn for the token and `id` the generated row id: stores and returns a token
        of the configured length that expires seven days later. */
    method CreateVerificationEmailToken(userId: string, id: string, random: seq<byte>, now: int) returns (token: string)
      requires |random| == TokenLib.BytesNeeded(AppConfig.VERIFICATION_TOKEN_LENGTH)
      modifies db`verificationTokens
      ensures token == TokenLib.GenerateToken(AppConfig.VERIFICATION_TOKEN_LENGTH, random)
      ensures |token| == AppConfig.VERIFICATION_TOKEN_LENGTH
      ensures db.verificationTokens == UpsertToken(old(db.verificationTokens),
                ExpiringToken(id, userId, token, now + AppConfig.VERIFICATION_TOKEN_MAX_AGE_MS))
    {
      token := TokenLib.GenerateToken(AppConfig.VERIFICATION_TOKEN_LENGTH, random);
      db.verificationTokens := UpsertToken(db.verificationTokens,
        ExpiringToken(id, userId, token, now + AppConfig.VERIFICATION_TOKEN_MAX_AGE_MS));
    }

    /** `createResetPasswordToken(userId)`: the same with the reset-token length and
        its ten-minute lifetime. */
    method CreateResetPasswordToken(userId: string, id: string, random: seq<byte>, now: int) returns (token: string)
      requires |random| == TokenLib.BytesNeeded(AppConfig.RESET_PASSWORD_TOKEN_LENGTH)
      modifies db`resetPasswordTokens
      ensures token == TokenLib.GenerateToken(AppConfig.RESET_PASSWORD_TOKEN_LENGTH, random)
      ensures |token| == AppConfig.RESET_PASSWORD_TOKEN_LENGTH
      ensures db.resetPasswordTokens == UpsertToken(old(db.resetPasswordTokens),
                ExpiringToken(id, userId, token, now + AppConfig.RESET_PASSWORD_TOKEN_MAX_AGE_MS))
    {
      token := TokenLib.GenerateToken(AppConfig.RESET_PASSWORD_TOKEN_LENGTH, random);
      db.resetPasswordTokens := UpsertToken(db.resetPasswordTokens,
        ExpiringToken(id, userId, token, now + AppConfig.RESET_PASSWORD_TOKEN_MAX_AGE_MS));
    }

    /** `createTwoFactorConfirmation(userId)` with generated row id `id`. */
    method CreateTwoFactorConfirmation(userId: string, id: string)
      modifies db`twoFactorConfirmations
      ensures db.twoFactorConfirmations == old(db.twoFactorConfirmations) + [TwoFactorConfirmation(id, userId)]
    {
      db.twoFactorConfirmations := db.twoFactorConfirmations + [TwoFactorConfirmation(id, userId)];
    }

    /** The password column `createUser` writes: the hash of a non-empty password,
        nothing for an empty or absent one. */
    function StoredPassword(password: Option<string>): (r: Option<string>)
      reads this
      ensures r.Some? <==> Truthy(password)
      ensures r.Some? ==> r.value == hasher.hash(password.value)
    {
      if Truthy(password) then Some(hasher.hash(password.value)) else None
    }

    /** `createUser({email, password, name})` with generated ids `id` (user) and
        `settingsId` (settings row). The insert violates the unique email column when a
        user with that email exists: then nothing is written and None stands for the
        thrown error. Otherwise exactly one user, unverified and with the password
        hashed, and one default settings row for it are inserted. */
    method CreateUser(id: string, settingsId: string, email: string, name: Option<string>, password: Option<string>)
      returns (r: Option<User>)
      modifies db`users, db`userSettings
      ensures r.None? <==> old(GetUserByEmail(email)).Some?
      ensures r.None? ==> db.users == old(db.users) && db.userSettings == old(db.userSettings)
      ensures r.Some? ==> r.value == User(id, email, name, StoredPassword(password), None, None, None)
      ensures r.Some? ==> db.users == old(db.users) + [r.value]
      ensures r.Some? ==> db.userSettings == old(db.userSettings) + [UserSettings(settingsId, id, "system", false)]
    {
      if GetUserByEmail(email).Some? {
        return None;
      }
      var user := User(id, email, name, StoredPassword(password), None, None, None);
      db.users := db.users + [user];
      db.userSettings := db.userSettings + [UserSettings(settingsId, id, "system", false)];
      r := Some(user);
    }

    /** `updateUserEmailVerified(userId)` at time `now`: marks that user verified and
        touches no other row or column. */
    method UpdateUserEmailVerified(userId: string, now: int)
      modifies db`users
      ensures db.users == UpdateWhere(old(db.users), (u: User) => u.id == userId, (u: User) => u.(emailVerified := Some(now)))
    {
      db.users := UpdateWhere(db.users, (u: User) => u.id == userId, (u: User) => u.(emailVerified := Some(now)));
    }

    /** `updateUserPassword(userId, password)`: stores the hash of the new password,
        never the password itself. */
    method UpdateUserPassword(userId: string, password: string)
      modifies db`users
      ensures db.users == UpdateWhere(old(db.users), (u: User) => u.id == userId, (u: User) => u.(password := Some(hasher.hash(password))))
    {
      db.users := UpdateWhere(db.users, (u: User) => u.id == userId, (u: User) => u.(password := Some(hasher.hash(password))));
    }
  }
}
