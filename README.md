# Authentication, chat and billing backend — a Dafny model

This project models the core of an Express REST backend:

- **Accounts:** sign-up with e-mail verification, sign-in with optional two-factor codes, sign-out, refresh-token rotation with a Redis denylist of revoked sessions, and password reset.
- **Profile and settings:** the user's profile, settings and password.
- **Chat:** rooms, paginated history, and a message whose AI answer is relayed as server-sent events and then stored.
- **Billing:** Stripe checkout and subscription webhooks.
- **Uploads:** presigned S3 uploads and reading a stored file back as a base 64 data URL.

How the model is built:

- The relational store is one `Tables.Database` object with one sequence of rows per table.
- Each repository is a class over that store. Its lookups are functions with `reads` frames and its writes are methods with `modifies` frames on single table fields.
- Each write method is specified by a function of the old table (`UpdateWhere`, `RemoveWhere`, `UpsertToken`, `Upserted`, `PatchedRows`).
- The services are classes that hold their repositories, the cache and the mailer.
- Each flow is a method whose contract gives every exit of the source: the response, and exactly which tables change.

Inputs instead of effects:

- Time is a millisecond `now` parameter.
- Every random draw (token bytes, uuids, row ids) is an input.
- Foreign libraries are values:
  - password hashing is a pair of functions;
  - HMAC and SHA-256 are function parameters;
  - a JSON web token is a symbolic signed value that `Verify` checks against the secret and the clock, with the signing library's rules for `expiresIn`.
- The mail transport and the Redis server each have an `up` flag. When it is false, every command throws.
- Third-party calls (OpenAI, Stripe, S3 presigning, `fetch`) are their results, passed in.

The current service (`apps/server/...`) and the older one (`src/...`) differ in `signUp` only in the name they give a new user. `AuthFlows.AuthService` carries a `variant` for that.

## Model

| member | source | states |
|---|---|---|
| AppConfig.Lifetimes | src/config/appConfig.ts:4-22 | The configured lifetimes come to seven days (verification), ten minutes (reset), thirty minutes (access) and seven days (refresh). |
| Common.FirstWhere | src/modules/auth/authRepository.ts:18-24 | `findFirst`: the result satisfies the condition and is the first such row; None exactly when no row satisfies it. |
| Common.RemoveWhere | src/modules/auth/authRepository.ts:74-88 | `delete ... where`: every remaining row was there and fails the condition; no failing row is lost; the table shrinks exactly when some row matched. |
| Common.RemoveWhereConcat | src/modules/auth/authRepository.ts:74-88 | Deleting from two halves deletes from each in place, so the rows that stay keep their order. |
| Common.UpdateWhere | src/modules/user/userRepository.ts:12-16 | `update ... where`: same length; matching rows are rewritten and the others are kept in place. |
| Common.FirstWhereAfterUpdate | src/modules/user/userRepository.ts:12-16 | After an update by a key, a lookup by that key finds the rewritten form of the row it found before. |
| Common.FirstWhereOtherAfterUpdate | src/modules/user/userRepository.ts:12-16 | After an update by a key, a lookup by a different key sees the same row as before. |
| Base64.Sextets | apps/server/src/lib/token.ts:10 | `(4n+2)/3` values, each in 0..63. |
| Base64.GroupOfOne | apps/server/src/lib/token.ts:10 | A final single byte decodes back from its two values. |
| Base64.GroupOfTwo | apps/server/src/lib/token.ts:10 | Two final bytes decode back from their three values. |
| Base64.GroupOfThree | apps/server/src/lib/token.ts:10 | Three bytes decode back from their four values. |
| Base64.OctetsOfGroup | apps/server/src/lib/token.ts:10 | Three bytes in front of any tail decode back from their four values. |
| Base64.OctetsOfSextets | apps/server/src/lib/token.ts:10 | Reassembling the 6-bit values gives back the original bytes. |
| Base64.Digits | apps/server/src/lib/token.ts:10 | One character per value. |
| Base64.ValuesOfDigits | apps/server/src/lib/token.ts:10 | Reading the characters back gives the values. |
| Base64.EncodeUrl | apps/server/src/lib/token.ts:10 | `base64url` output: `(4n+2)/3` characters, all from the URL-safe alphabet. |
| Base64.DigitCount | apps/server/src/lib/token.ts:10 | Digit count arithmetic: never one more than a multiple of four, and the padding completes whole groups. |
| Base64.EncodeStd | apps/server/src/utils/upload.ts:22 | `base64` output: `4·ceil(n/3)` characters. |
| Base64.DecodeUrlEncodeUrl | apps/server/src/lib/token.ts:10 | Round trip: decoding the URL-safe encoding gives the bytes back. |
| Base64.DigitIsNotPad | apps/server/src/utils/upload.ts:22 | No digit of either alphabet is '='. |
| Base64.UnpaddedDigits | apps/server/src/utils/upload.ts:22 | Dropping the trailing '=' of digits followed by padding leaves exactly the digits. |
| Base64.UnpaddedEncodeStd | apps/server/src/utils/upload.ts:22 | Dropping the padding of a standard encoding leaves exactly its digits. |
| Base64.DecodeStdEncodeStd | apps/server/src/utils/upload.ts:22 | Round trip: decoding the padded standard encoding gives the bytes back. |
| Base64.EncodeStdAlphabet | apps/server/src/utils/upload.ts:22 | The standard encoding uses only the standard alphabet and '=' (so no ','). |
| TokenLib.Sign | apps/server/src/lib/token.ts:14-18 | A signed token carries the payload and the secret, and expires the `expiresIn` span, read as seconds, after its issue second. |
| TokenLib.Verify | apps/server/src/lib/token.ts:31-40 | Verification gives the payload only for a token signed with that secret whose expiry second has not been reached. |
| TokenLib.BytesNeeded | apps/server/src/lib/token.ts:8 | `ceil(0.75 * length)`: `3·length <= 4·n < 3·length + 4`, never more bytes than characters. |
| TokenLib.GenerateToken | apps/server/src/lib/token.ts:7-11 | The token is exactly `length` characters, all from the URL-safe alphabet. |
| TokenLib.WholeTokenDecodes | apps/server/src/lib/token.ts:7-11 | For a length that is a multiple of four (48 is configured), the token decodes back to the drawn bytes. |
| TokenLib.AccessTokenLifetime | apps/server/src/lib/token.ts:13-19 | The token carries audience APP_ORIGIN and issuer BASE_URL. It verifies with the access secret exactly while the clock second is below issue second + 1800: with its payload for the first 29 min 1 s, and never from 30 min on. |
| TokenLib.GenerateRefreshToken | apps/server/src/lib/token.ts:21-47 | The result carries the fresh session id and a cookie expiry of now plus the configured milliseconds, and verifies at issue with its user and session. |
| TokenLib.RefreshTokenValidUntilCookieExpiry | apps/server/src/lib/token.ts:21-47 | The refresh token verifies with its own user and session at every moment up to its cookie's expiry. |
| TokenLib.RefreshTokenOutlivesCookie | apps/server/src/lib/token.ts:29-38 | As written, the token verifies exactly while the clock's seconds stay below issue + 604800000 s, and it still verifies one full lifetime after its cookie has expired. |
| TokenLib.GenerateRefreshTokenIntended | apps/server/src/lib/token.ts:21-47 | With the lifetime passed in seconds, the token verifies at issue and its cookie expiry is unchanged. |
| TokenLib.RefreshTokenIntendedLifetime | apps/server/src/lib/token.ts:21-47 | The corrected token verifies until the last whole second before its cookie expires, and never from the cookie's expiry on. |
| TokenLib.HashToken | apps/server/src/lib/token.ts:49-53 | An empty token throws; any other token gives the HMAC digest under the secret. |
| TokenLib.CompareTokensReflexive | apps/server/src/lib/token.ts:55-66 | A token compares equal to itself exactly when it is non-empty; comparison is symmetric. |
| TokenLib.CompareTokensDistinct | apps/server/src/lib/token.ts:55-66 | Two tokens compare equal exactly when both are non-empty and their keyed digests agree; tokens whose digests differ never compare equal. |
| LegacyTokens.GenerateSecureToken | src/utils/token.ts:11-16 | The result pairs the generated token with the SHA-256 digest of that token. |
| LegacyTokens.DecimalChar | src/utils/token.ts:33 | The digit character of 0..9. |
| LegacyTokens.CodeDigits | src/utils/token.ts:31-38 | One decimal digit per byte, `byte % 10`, in order. |
| LegacyTokens.GenerateRandomCode | src/utils/token.ts:22-41 | The loop result equals the digits of the bytes, cut to `length` and left-padded with '0'. |
| LegacyTokens.RandomCodeShape | src/utils/token.ts:22-41 | The code is exactly `length` decimal digits: `length - |buffer|` leading zeros, then one digit per byte. |
| LegacyTokens.SliceTo | src/utils/token.ts:40 | `slice(0, n)`: a prefix of length `min(n, |s|)`. |
| LegacyTokens.PadStart | src/utils/token.ts:40 | `padStart`: length `max(n, |s|)`, ending with `s`, padded in front with `c`. |
| LegacyTokens.GenerateAccessToken | src/utils/token.ts:49-53 | No audience or issuer; verifies with the access secret at issue, with its payload, and expires 1800 s after its issue second. |
| LegacyTokens.GenerateRefreshToken | src/utils/token.ts:59-63 | Carries the payload and expires 604800 s after its issue second: "7d" is the configured refresh lifetime. |
| TokenBlacklist.BlacklistKey | apps/server/src/services/redis/tokenBlacklist.ts:4-8 | The key is the prefix `TOKEN_BLACKLIST:` followed by the session id. |
| TokenBlacklist.BlacklistKeyInjective | apps/server/src/services/redis/tokenBlacklist.ts:4-8 | Distinct session ids never share a key. |
| TokenBlacklist.AddedIsLive | apps/server/src/services/redis/tokenBlacklist.ts:9-11 | After the SET, the session reads as blacklisted exactly until `expiresInMs + 120000` ms have passed. |
| TokenBlacklist.AddedLeavesOthers | apps/server/src/services/redis/tokenBlacklist.ts:6-16 | Adding one session changes what no other session reads. |
| TokenBlacklist.AddedTwice | apps/server/src/services/redis/tokenBlacklist.ts:9-11 | A second SET overwrites: only the later TTL counts. |
| TokenBlacklist.AddTokenToBlacklist | apps/server/src/services/redis/tokenBlacklist.ts:6-16 | When the cache is up the entry is stored with the TTL and true is returned; otherwise nothing changes and the error is passed on. |
| TokenBlacklist.CheckTokenBlacklist | apps/server/src/services/redis/tokenBlacklist.ts:18-27 | Gives the liveness of the session's key when the cache is up, and the error otherwise. |
| Mail.Mailer.Send | src/services/email/emailService.ts:27-43 | Delivered exactly when the server is up; a delivered message is appended to the outbox, and nothing changes otherwise. |
| AuthRepo.UpsertTokenEffect | src/modules/auth/authRepository.ts:90-110 | An upsert under a new id appends and keeps every earlier token; under an existing id it rewrites token and expiry in place and keeps id and user. |
| AuthRepo.UpsertTokenStores | src/modules/auth/authRepository.ts:90-110 | After the upsert some row carries the new id, token and expiry. |
| AuthRepo.AuthRepository.GetUserByEmail | src/modules/auth/authRepository.ts:18-24 | A found user is stored and has that email; None exactly when no user has it. |
| AuthRepo.AuthRepository.GetUserById | src/modules/auth/authRepository.ts:26-32 | A found user is stored and has that id; None exactly when none has it. |
| AuthRepo.AuthRepository.GetVerificationTokenByUserId | src/modules/auth/authRepository.ts:34-40 | A found token is stored and belongs to that user; None exactly when none does. |
| AuthRepo.AuthRepository.GetVerificationTokenByToken | src/modules/auth/authRepository.ts:42-48 | A found row is stored and holds that token; None exactly when none does. |
| AuthRepo.AuthRepository.GetTwoFactorTokenByEmail | src/modules/auth/authRepository.ts:50-56 | A found row is stored and was issued for that email; None exactly when none was. |
| AuthRepo.AuthRepository.GetUserSettingsByUserId | src/modules/auth/authRepository.ts:58-64 | A found settings row is stored and belongs to that user; None exactly when none does. |
| AuthRepo.AuthRepository.GetResetPasswordTokenByToken | src/modules/auth/authRepository.ts:140-146 | A found row is stored and holds that token; None exactly when none does. |
| AuthRepo.AuthRepository.GetTwoFactorConfirmationByUserId | src/modules/auth/authRepository.ts:148-154 | A found confirmation is stored and belongs to that user; None exactly when none does. |
| AuthRepo.AuthRepository.DeleteVerificationTokenByToken | src/modules/auth/authRepository.ts:74-76 | Exactly the rows holding the token are removed; none remains. |
| AuthRepo.AuthRepository.DeleteResetPasswordTokenByToken | src/modules/auth/authRepository.ts:78-80 | Exactly the rows holding the token are removed; none remains. |
| AuthRepo.AuthRepository.DeleteTwoFactorTokenByToken | src/modules/auth/authRepository.ts:82-84 | Exactly the rows holding the token are removed. |
| AuthRepo.AuthRepository.DeleteTwoFactorConfirmation | src/modules/auth/authRepository.ts:86-88 | Exactly the confirmations with that id are removed. |
| AuthRepo.AuthRepository.CreateVerificationEmailToken | src/modules/auth/authRepository.ts:90-110 | Upserts and returns a 48-character token that expires seven days after `now`. |
| AuthRepo.AuthRepository.CreateResetPasswordToken | src/modules/auth/authRepository.ts:118-138 | Upserts and returns a 48-character token that expires ten minutes after `now`. |
| AuthRepo.AuthRepository.CreateTwoFactorConfirmation | src/modules/auth/authRepository.ts:112-116 | Appends one confirmation for the user. |
| AuthRepo.AuthRepository.StoredPassword | src/modules/auth/authRepository.ts:156-170 | The stored column is the hash of a non-empty password, and null for an empty or absent one. |
| AuthRepo.AuthRepository.CreateUser | src/modules/auth/authRepository.ts:156-170 | A taken email writes nothing and throws; otherwise exactly one unverified user with a hashed password, and its default settings row, are appended. |
| AuthRepo.AuthRepository.UpdateUserEmailVerified | src/modules/auth/authRepository.ts:176-178 | Only that user's `emailVerified` becomes `now`; every other row and column stays. |
| AuthRepo.AuthRepository.UpdateUserPassword | src/modules/auth/authRepository.ts:180-183 | Only that user's password column changes, to the hash of the new password. |
| AuthFlows.NewUserName | apps/server/src/modules/auth/authService.ts:58-64 | The current service names a new user after the email; the older one (src/modules/auth/authService.ts:51) gives no name. |
| AuthFlows.AuthService.SignUp | apps/server/src/modules/auth/authService.ts:24-76 | Verified user: nothing changes. Unverified user: an expired token may be replaced and resent, then the create attempt fails and the result is the generic 500 error. New email: a user, settings and token, with the same generic message as for a verified user. |
| AuthFlows.AuthService.SignUpIntended | apps/server/src/modules/auth/authService.ts:24-76 | Corrected sign-up: every existing email gets the generic message, so the response is the same for all emails while mail is up; new users are created as in SignUp. |
| AuthFlows.AuthService.ResendVerification | apps/server/src/modules/auth/authService.ts:37-56 | The expired token is replaced and the new one mailed; when mail fails the tables are rolled back. |
| AuthFlows.AuthService.CreateAndVerify | apps/server/src/modules/auth/authService.ts:58-75 | A new email gets a user, settings and a mailed token; a taken email or failed mail leaves every table as it was and gives the generic error. |
| AuthFlows.AuthService.ValidateTwoFactorCode | apps/server/src/modules/auth/authService.ts:164-186 | Without a code, a stored confirmation passes and is consumed. With a code, a matching unexpired token passes, is deleted, and leaves a confirmation. A failing check writes nothing. |
| AuthFlows.AuthService.SignIn | apps/server/src/modules/auth/authService.ts:78-150 | Every rejection is the same 401 with an empty refresh token. Acceptance requires a verified user, a verifying password and, with two-factor on, a passing check. An accepted sign-in returns an access token for the user and a refresh token of a fresh session. |
| AuthFlows.AuthService.SignOut | apps/server/src/modules/auth/authService.ts:152-162 | A verifying refresh token has its session blacklisted for the refresh lifetime plus grace; anything else gives the 500 failure and no write. |
| AuthFlows.AuthService.VerifyEmail | apps/server/src/modules/auth/authService.ts:188-211 | Unknown or expired token: 400 and no write. Otherwise the token's user is verified and the token deleted. |
| AuthFlows.AuthService.ForgotPassword | apps/server/src/modules/auth/authService.ts:213-243 | The same OK message for every email. Only a verified user gets a stored and mailed reset token; a failed mail gives 500 and the token stays. |
| AuthFlows.AuthService.ResetPassword | apps/server/src/modules/auth/authService.ts:245-268 | Unknown or expired token: 400 and no write. Otherwise the token's user gets the hash of the new password and the token is deleted. |
| AuthFlows.AuthService.RefreshToken | apps/server/src/modules/auth/authService.ts:270-323 | The four 401 reasons in the source's order, each with no write. Otherwise the old session is blacklisted, and new tokens of a fresh session for the same user are returned. |
| AuthScenarios.VerifyEmailTwice | apps/server/src/modules/auth/authService.ts:188-211 | A verification token works once: the second attempt is "Invalid token". |
| AuthScenarios.ResetPasswordTwice | apps/server/src/modules/auth/authService.ts:245-268 | A reset token works once: after a successful reset, a second reset with the same token fails with "Invalid token" (400), and the users table is exactly as the first reset left it, the token's user holding the hash of the first new password. |
| AuthScenarios.RefreshThenReplay | apps/server/src/modules/auth/authService.ts:270-323 | A refresh token that has been rotated is refused when replayed within the denylist's lifetime. |
| AuthScenarios.SignOutThenRefresh | apps/server/src/modules/auth/authService.ts:152-162 | After sign-out the same refresh token cannot be refreshed. |
| AuthScenarios.SignOutTwice | apps/server/src/modules/auth/authService.ts:152-162 | Signing out twice succeeds twice, and the later TTL counts. |
| AuthScenarios.ConfirmationAddedThenConsumed | apps/server/src/modules/auth/authService.ts:164-186 | A confirmation appended for a user who held none, under an unused id, is the one found for that user, and deleting it by id restores the table. |
| AuthScenarios.TwoFactorCodeThenNoCode | apps/server/src/modules/auth/authService.ts:164-186 | A sign-in with the right code leaves a confirmation that lets the next sign-in through without a code; for a user who held no confirmation, the confirmations table is afterwards exactly as before. |
| AuthScenarios.TwoFactorCodeSpentOnce | apps/server/src/modules/auth/authService.ts:164-186 | For a user who held no confirmation, a code buys exactly one code-less sign-in: the second sign-in (no code) succeeds and a third (no code) is refused. |
| AuthScenarios.RevokedRefreshTokenRevives | apps/server/src/lib/token.ts:38 | As written, once the denylist entry has expired a revoked refresh token verifies again and its session is no longer revoked. |
| AuthScenarios.RevokedRefreshTokenStaysRevoked | apps/server/src/services/redis/tokenBlacklist.ts:9-11 | With the corrected token, at every moment after revocation either the session is denylisted or the token no longer verifies. |
| AssertAuth.JwtStrategy | src/services/strategies/jwt.ts:15-26 | No user unless the token verifies with the access secret; otherwise the user with the token's email, with the payload. |
| AssertAuth.Decide | src/middlewares/assertAuthentication.ts:10-33 | An error goes to `next(err)`. No user, or a denylisted session, gives 401. Acceptance, with the strategy's user, happens exactly for an authenticated, non-denylisted session. A cache error leaves the request unanswered. |
| AssertAuth.AssertAuthentication | src/middlewares/assertAuthentication.ts:10-33 | `req.user` is set and `next()` called exactly on acceptance; the 401 is sent exactly on rejection. |
| AssertAuth.RevokedSessionRejected | src/middlewares/assertAuthentication.ts:22-28 | After a session is revoked, every access token of that session issued no later than the revocation is refused for as long as it verifies. |
| ChatRepo.Insert | apps/server/src/modules/chat/chatRepository.ts:20-28 | The result holds the old elements plus `x` (as a multiset), one longer. |
| ChatRepo.InsertKeepsSorted | apps/server/src/modules/chat/chatRepository.ts:20-28 | Insertion keeps the newest-first order. |
| ChatRepo.SortDesc | apps/server/src/modules/chat/chatRepository.ts:20-28 | `orderBy desc`: the same rows (a permutation), newest first. |
| ChatRepo.Filter | apps/server/src/modules/chat/chatRepository.ts:20-28 | `where`: only rows that satisfy the condition (table order is stated by `FilterConcat` and `FilterOne`). |
| ChatRepo.FilterConcat | apps/server/src/modules/chat/chatRepository.ts:20-28 | Filtering two halves filters each in place: the selected rows keep table order. |
| ChatRepo.FilterOne | apps/server/src/modules/chat/chatRepository.ts:20-28 | A single row is kept exactly when it satisfies the condition. |
| ChatRepo.FilterComplete | apps/server/src/modules/chat/chatRepository.ts:20-28 | No row that satisfies the condition is left out. |
| ChatRepo.Page | apps/server/src/modules/chat/chatRepository.ts:20-28 | `offset`/`limit`: the rows from `offset`, at most `limit` of them. |
| ChatRepo.PageOfSorted | apps/server/src/modules/chat/chatRepository.ts:35-63 | A page of a newest-first sequence is newest first. |
| ChatRepo.ChatUpdatedAt | apps/server/src/modules/chat/chatRepository.ts:23 | The ordering key of rooms. |
| ChatRepo.MessageCreatedAt | apps/server/src/modules/chat/chatRepository.ts:35-63 | The ordering key of messages. |
| ChatRepo.MessagesByChat | apps/server/src/modules/chat/chatRepository.ts:35-63 | Only that chat's messages, newest first. |
| ChatRepo.MessagesByChatComplete | apps/server/src/modules/chat/chatRepository.ts:35-63 | No message of the chat is left out. |
| ChatRepo.RoomsOfUser | apps/server/src/modules/chat/chatRepository.ts:20-28 | Only that user's rooms, most recently updated first. |
| ChatRepo.RoomsOfUserComplete | apps/server/src/modules/chat/chatRepository.ts:20-28 | No room of the user is left out. |
| ChatRepo.ChatRepository.CreateChatRoom | apps/server/src/modules/chat/chatRepository.ts:8-11 | Appends exactly the new room and returns it. |
| ChatRepo.ChatRepository.GetChatRoomById | apps/server/src/modules/chat/chatRepository.ts:13-18 | A found room is stored and has that id; None exactly when none has it. |
| ChatRepo.ChatRepository.GetChatRoomsByUserId | apps/server/src/modules/chat/chatRepository.ts:20-28 | At most `limit` of the user's rooms, most recently updated first, from `offset` of the full ordered list. |
| ChatRepo.ChatRepository.CreateChatMessage | apps/server/src/modules/chat/chatRepository.ts:30-33 | Appends exactly the new message. |
| ChatRepo.ChatRepository.Attachments | apps/server/src/modules/chat/chatRepository.ts:50-60 | One entry per attachment link of the message, in link order: the i-th is the first file upload whose id is the i-th link's file id (none when no upload has it). |
| ChatRepo.ChatRepository.GetChatMessagesByChatId | apps/server/src/modules/chat/chatRepository.ts:35-63 | A page of the chat's messages, newest first; each message carries exactly `Attachments` of it, the file record of each of its links in link order. |
| ChatRepo.ChatRepository.DeleteChatRoomById | apps/server/src/modules/chat/chatRepository.ts:65-67 | Removes that room with its messages and their links; everything else stays. |
| ChatRepo.ChatRepository.DeleteAllChatRoomsByUserId | apps/server/src/modules/chat/chatRepository.ts:69-71 | Removes exactly that user's rooms, with their messages and links. |
| ChatRepo.ChatRepository.CreateMessageAttachment | apps/server/src/modules/chat/chatRepository.ts:73-75 | Appends exactly one link. |
| ChatFlows.DefaultChatName | src/modules/chat/chatService.ts:53 | The name is the message itself when it has at most 30 characters; otherwise its first 30 characters followed by "...". |
| ChatFlows.DefaultChatNameIdempotent | src/modules/chat/chatService.ts:53 | Naming a room after a default name gives that name back. |
| ChatFlows.Paginate | src/modules/chat/chatService.ts:245-251 | Of `limit + 1` fetched rows, a prefix of at most `limit` is returned; a next page, at `offset + limit`, exists exactly when more were fetched. |
| ChatFlows.PaginateWindow | src/modules/chat/chatService.ts:287-293 | The page is exactly positions `offset .. offset+limit` of the whole result; a next page exists exactly when rows remain, and it starts at the first of them. |
| ChatFlows.RelayFrom | src/modules/chat/chatService.ts:134-144 | Every forwarded text is non-empty. |
| ChatFlows.RelayedWholeAnswer | src/modules/chat/chatService.ts:134-144 | A relay that runs to the end forwards, in total, the whole streamed answer. |
| ChatFlows.EndedRelayIsCut | src/modules/chat/chatService.ts:134-144 | Nothing that arrives after the response has ended reaches the client. |
| ChatFlows.LastTen | src/modules/chat/chatService.ts:94-95 | `slice(-10)`: the last `min(10, n)` elements, order kept. |
| ChatFlows.History | src/modules/chat/chatService.ts:94-98 | One prompt message per kept message, same role and text, in the order fetched. |
| ChatFlows.PromptHistoryOmitsNewest | src/modules/chat/chatService.ts:94-95 | As written, in a room with more than ten messages the newest message is not in the history, and the window runs newest first. |
| ChatFlows.LastTenOfNewestFirst | src/modules/chat/chatService.ts:94-95 | The last ten of a newest-first sequence keep that order and leave out a strictly newest first element. |
| ChatFlows.NewestTen | src/modules/chat/chatService.ts:94-95 | Corrected window: the first `min(10, n)` fetched messages, reversed. |
| ChatFlows.NewestTenIsChronological | src/modules/chat/chatService.ts:94-95 | The corrected window is oldest first. |
| ChatFlows.NewestTenKeepsNewest | src/modules/chat/chatService.ts:94-95 | The corrected window drops only messages no newer than those it keeps, and it ends with the newest message. |
| ChatFlows.NewestTenKeepsFirstFetched | src/modules/chat/chatService.ts:94-95 | The corrected window holds exactly the first ten fetched messages (as a multiset). |
| ChatFlows.ReversedSameMultiset | src/modules/chat/chatService.ts:94-95 | A reversed sequence holds the same elements. |
| ChatFlows.HistoryIntended | src/modules/chat/chatService.ts:94-98 | The corrected history: the newest ten messages, oldest first, as role and text. |
| ChatFlows.PromptIntendedEndsWithNewest | src/modules/chat/chatService.ts:94-132 | With the corrected history, the room's newest message comes right before the new message. |
| ChatFlows.Links | src/modules/chat/chatService.ts:83-92 | One link per attachment, in list order, each to the new message; none for an absent or empty list. |
| ChatFlows.Relay | src/modules/chat/chatService.ts:134-144 | The loop writes exactly the `content` events of the forwarded texts and returns their concatenation and the failure, as `RelayFrom` says. |
| ChatFlows.RelayAdvance | src/modules/chat/chatService.ts:134-144 | One relayed chunk moves its text from what is still to come to what has been sent. |
| ChatFlows.ConcatSnoc | src/modules/chat/chatService.ts:139 | Appending a part appends its text. |
| ChatFlows.ContentEventsSnoc | src/modules/chat/chatService.ts:140 | Appending a text appends its event. |
| ChatFlows.ChatService.RoomCheck | src/modules/chat/chatService.ts:200-233 | A missing room gives 404, someone else's gives 403, and the owner's gives no failure. |
| ChatFlows.ChatService.ResolveRoom | src/modules/chat/chatService.ts:53-73 | No chat id: one room named after the message is created and announced. Otherwise the failure is exactly `RoomFailure`, and nothing is written. |
| ChatFlows.ChatService.RoomFailure | src/modules/chat/chatService.ts:65-73 | "Chat room not found" for a missing room, "You don't have access to this chat room" for someone else's, none for the owner's. |
| ChatFlows.ChatService.StoreUserMessage | src/modules/chat/chatService.ts:76-92 | Appends the user's message and exactly its links. |
| ChatFlows.ChatService.LoadPrompt | src/modules/chat/chatService.ts:94-132 | Returns the history of the room's twenty newest messages followed by the message; changes nothing. |
| ChatFlows.ChatService.SendMessageAndStream | src/modules/chat/chatService.ts:25-165 | Events and writes for every exit. A room failure sends one error event and ends the response. A completed stream stores exactly the forwarded answer as an assistant message, then sends `done` and ends. A failure mid-stream stores no answer. |
| ChatFlows.ChatService.EndWithError | src/modules/chat/chatService.ts:154-161 | An open response gets the error event and is ended; an ended one is left alone. |
| ChatFlows.ChatService.StreamIntoRoom | src/modules/chat/chatService.ts:76-153 | Stores the user's message and links; a completed stream stores exactly the relayed text and ends with `done`. |
| ChatFlows.ChatService.GetUserChatRooms | src/modules/chat/chatService.ts:235-262 | One page of the user's rooms, most recently updated first; `hasNextPage` exactly when more exist, and `nextOffset` is `offset + limit` then and null otherwise. |
| ChatFlows.ChatService.GetChatMessages | src/modules/chat/chatService.ts:264-304 | 404 for a missing room, 403 for someone else's, otherwise one page of its messages, newest first, each with exactly its attachments' file records; `hasNextPage` exactly when more exist, and `nextOffset` is `offset + limit` then and null otherwise. |
| ChatFlows.ChatService.DeleteChatRoom | src/modules/chat/chatService.ts:200-233 | Only the owner's request deletes. It deletes exactly that room, the room's messages and those messages' attachment links, and nothing else. Other requests write nothing. |
| ChatFlows.ChatService.CreateChatRoom | src/modules/chat/chatService.ts:178-198 | One new room owned by the user, answered with 201. |
| ChatFlows.ChatService.DeleteAllChatRooms | src/modules/chat/chatService.ts:167-176 | The user has no rooms left. Exactly the user's rooms, the messages in them and those messages' attachment links are deleted; other users' rooms, messages and links stay. |
| UserRepo.PlanPatch | src/services/stripe/index.ts:105 | `{ plan }` is a non-empty update. |
| UserRepo.ApplyProfile | src/modules/user/userRepository.ts:12-16 | The given columns take their new values; every other column keeps its old one. |
| UserRepo.ApplySettings | src/modules/user/userRepository.ts:31-39 | The given settings change; id and user stay; an empty patch changes nothing. |
| UserRepo.UserRepository.GetUserById | src/modules/user/userRepository.ts:8-10 | A found user is stored and has that id; None exactly when none has it. |
| UserRepo.UserRepository.GetUserSettingsByUserId | src/modules/user/userRepository.ts:23-29 | A found settings row is stored and belongs to that user; None exactly when none does. |
| UserRepo.UserRepository.UpdateUserProfile | src/modules/user/userRepository.ts:12-16 | An empty patch throws and writes nothing. Otherwise the user's row takes the patch, the updated row is returned (None for an unknown id), and other users' lookups are unchanged. |
| UserRepo.UserRepository.UpdateUserPassword | src/modules/user/userRepository.ts:18-21 | The user's password becomes the hash of the new one; other users are unchanged. |
| UserRepo.UserRepository.UpdateUserSettings | src/modules/user/userRepository.ts:31-39 | An empty patch throws and writes nothing. Otherwise the user's settings take the patch and are returned; other users' settings are unchanged. |
| SubscriptionRepo.Patched | src/modules/subscription/subscriptionRepository.ts:56-67 | Given columns change, others and identity stay, `updatedAt` becomes `now`. |
| SubscriptionRepo.NewRow | src/modules/subscription/subscriptionRepository.ts:30-54 | A new row has the data's columns, `cancelAtPeriodEnd` false by default, and both timestamps `now` (src/db/schemas/subscription/subscription.ts:21-38). |
| SubscriptionRepo.PatchedRows | src/modules/subscription/subscriptionRepository.ts:56-67 | Same length; exactly the user's rows are patched. |
| SubscriptionRepo.PatchedRowsLookup | src/modules/subscription/subscriptionRepository.ts:56-67 | After the update the user's row is the patched old row; every other user's row is as it was. |
| SubscriptionRepo.Upserted | src/modules/subscription/subscriptionRepository.ts:30-54 | An existing user's rows are overwritten in place; otherwise exactly one row is appended. |
| SubscriptionRepo.UpsertedLookup | src/modules/subscription/subscriptionRepository.ts:30-54 | After the upsert the user's row is the returned row, carrying the data's status and plan; other users' rows stay. |
| SubscriptionRepo.UpsertTwiceAddsAtMostOneRow | src/modules/subscription/subscriptionRepository.ts:30-54 | Two upserts for one user add at most one row, and exactly one only when the user had none. |
| SubscriptionRepo.SubscriptionRepository.GetSubscriptionByUserId | src/modules/subscription/subscriptionRepository.ts:18-22 | A found row is stored and belongs to that user; None exactly when none does. |
| SubscriptionRepo.SubscriptionRepository.GetSubscriptionByStripeId | src/modules/subscription/subscriptionRepository.ts:24-28 | A found row is stored and carries that provider id; None exactly when none does. |
| SubscriptionRepo.SubscriptionRepository.CreateOrUpdateSubscription | src/modules/subscription/subscriptionRepository.ts:30-54 | The table becomes `Upserted`, and a later lookup of the user sees the returned row. |
| SubscriptionRepo.SubscriptionRepository.UpdateSubscription | src/modules/subscription/subscriptionRepository.ts:56-67 | The table becomes `PatchedRows`; the patched row is returned, or None for a user without a row. |
| SubscriptionRepo.SubscriptionRepository.UpdateStripeCustomerId | src/modules/subscription/subscriptionRepository.ts:69-82 | On an existing row only the customer id and `updatedAt` change; otherwise an "active"/"free" row is inserted. Either way the user's row then carries the id. |
| SubscriptionRepo.SubscriptionRepository.GetUserActiveSubscription | src/modules/subscription/subscriptionRepository.ts:84-92 | The user's row exactly when its status is "active" or "trialing". |
| UserFlows.SettingsOf | apps/server/src/modules/user/userService.ts:39-42 | The settings view copies the row's theme and two-factor flag, and is empty without a row. |
| UserFlows.PlanOf | apps/server/src/modules/user/userService.ts:33-49 | Defaults "free", "active" and no cancellation; an empty plan name reads "free"; the period end is shown only when it is after the epoch. |
| UserFlows.Profile | apps/server/src/modules/user/userService.ts:31-50 | The profile is the user row without its password, plus settings and plan. |
| UserFlows.UserService.GetMe | apps/server/src/modules/user/userService.ts:21-53 | 404 for an unknown user; otherwise exactly that user's profile with their settings and plan. |
| UserFlows.UserService.ChangePassword | apps/server/src/modules/user/userService.ts:91-122 | Checked in order: 404, 401, 400, each with no write. On success only the hash changes; with a sound and discerning hasher the new password then verifies and the old one does not. |
| UserFlows.UserService.UpdateUserSettings | apps/server/src/modules/user/userService.ts:124-144 | 404 and no write without a settings row; 500 for an empty patch; otherwise the patched row. |
| UserFlows.UserService.GetUserSettings | apps/server/src/modules/user/userService.ts:146-164 | The user's settings row, or 404. |
| UserFlows.UserService.UpdateProfile | apps/server/src/modules/user/userService.ts:71-89 | 500 for an empty form; 404 and no write for an unknown user; otherwise the updated row with name and image changed. |
| StripeFlows.PeriodEndMs | src/services/stripe/index.ts:101 | `ended_at * 1000`, and the epoch for a subscription that has not ended. |
| StripeFlows.CreatedSubscriptionOnProfile | src/services/stripe/index.ts:85-112 | After a created event the profile shows plan "pro" and the event's status; the period end shows only for an event that has ended. |
| StripeFlows.UpdatedSubscriptionOnProfile | src/services/stripe/index.ts:114-141 | After an update event the profile shows the event's status, start and cancellation flag, and the plan it showed before. |
| StripeFlows.EndedSubscriptionFreesPlan | src/services/stripe/index.ts:131-133 | The owner's plan becomes "free" and nothing else about them changes. |
| StripeFlows.StripeService.GetStripeCustomerId | src/services/stripe/index.ts:75-83 | The stored non-empty customer id, or none. |
| StripeFlows.StripeService.HandleSubscriptionCreated | src/services/stripe/index.ts:85-112 | Without a user id: throws and writes nothing. Otherwise the subscription row is upserted with plan "pro" and the event's data, and the user's plan becomes "pro". |
| StripeFlows.StripeService.HandleSubscriptionUpdated | src/services/stripe/index.ts:114-141 | With a user id: no write. Unknown provider id: throws, no write. Otherwise the owner's row is patched, and "canceled"/"unpaid" puts the owner on "free". |
| StripeFlows.StripeService.CancelSubscription | src/services/stripe/index.ts:143-164 | Without a stored provider id: "No active subscription found", no write. Provider error: passed on, no write. Otherwise only `cancelAtPeriodEnd` becomes true. |
| StripeFlows.StripeService.CreateCheckoutSession | src/services/stripe/index.ts:24-73 | Unknown user: throws. A stored customer is reused without a write. Otherwise the new customer id is patched onto the user's existing row and nothing else changes, or, with no row, one free row holding it is appended. A session failure gives null. |
| StripeFlows.CheckoutTwice | src/services/stripe/index.ts:24-83 | Two checkouts create the provider customer at most once. |
| Upload.LastSegment | src/modules/upload/uploadService.ts:33-40 | `split(".").pop()`: the longest suffix without '.'. |
| Upload.UploadKey | src/modules/upload/uploadService.ts:33-40 | The key is the uuid, followed by "." and the extension when there is a non-empty one. |
| Upload.UploadKeyCorners | src/modules/upload/uploadService.ts:33-40 | A name without '.' is its own extension; a name ending in '.' has none. |
| Upload.LastSegmentOfPlainName | src/modules/upload/uploadService.ts:33-40 | A name without '.' is its own last segment. |
| Upload.UploadKeyKeepsExtension | src/modules/upload/uploadService.ts:33-40 | For a uuid without '.', the key's own extension is exactly the file's. |
| Upload.LastSegmentAfterDot | src/modules/upload/uploadService.ts:33-40 | The last segment of `p + "." + e`, for an `e` without '.', is `e`. |
| Upload.BaseUrl | apps/server/src/utils/upload.ts:3-9 | Ends in '/'; in local mode it is the local bucket address. |
| Upload.GetFileUrl | apps/server/src/utils/upload.ts:3-9 | The base followed by the key, so the key can be read back. |
| Upload.FinalUrl | src/modules/upload/uploadService.ts:52 | The local bucket address in local mode, the presigned address otherwise. |
| Upload.GetPresignedUrl | src/modules/upload/uploadService.ts:31-68 | A presigning error gives 500. Otherwise the final address, the form fields, and as id the key that was presigned. |
| Upload.LocalUploadIsServedAtFileUrl | src/modules/upload/uploadService.ts:52-58 | In local mode, address plus id is where the stored file is served. |
| Upload.MediaType | apps/server/src/utils/upload.ts:24 | The content type, or "application/octet-stream" when it is missing or empty. |
| Upload.LastIndexOf | apps/server/src/utils/upload.ts:25 | The index of the last occurrence, and None when there is none. |
| Upload.LastCommaBeforeText | apps/server/src/utils/upload.ts:25 | In `pre + "," + e` with no ',' in `e`, the last ',' is the one after `pre`. |
| Upload.ParseDataUrlOf | apps/server/src/utils/upload.ts:25 | Reading `data:m;base64,e` gives `m` and the decoding of `e`. |
| Upload.DataUrlRoundTrip | apps/server/src/utils/upload.ts:22-25 | Reading back the produced data URL gives its media type and exactly the body's bytes. |
| Upload.DecimalText | apps/server/src/utils/upload.ts:16 | A non-empty text of decimal digits. |
| Upload.ConvertFileUrlToBase64 | apps/server/src/utils/upload.ts:11-30 | A fetch error is passed on. A non-ok response throws "Failed to fetch file: status text". An ok response gives a data URL that reads back to its body. |

## Left out

- Database errors other than the unique-email constraint are not modelled. Transactions are modelled only where a rollback changes the outcome (sign-up's create and resend). The users schema is not part of this model, so the unique email is an assumption.
- Foreign services are results passed in: OpenAI's stream, Stripe's customer, session and subscription calls, S3 presigning, and `fetch`. Their request payloads (prices, URLs, presign conditions and expiry) are not modelled.
- The mail and Redis clients are reduced to an `up` flag. Connection handling, retries and `verifyConnection` are left out. E-mail HTML rendering is left out; a message keeps its recipient, kind and token.
- Logging, routers, controllers, request validation and the OpenAPI documents are not modelled. Neither is the Passport wiring beyond the JWT strategy callback.
- The content of attachments sent to the model (src/modules/chat/chatService.ts:100-126, an async map over file records) is left out. The prompt models only whether an attachment list is present.
- The stream's `close` listener and abort signal are left out. A disconnect is modelled only as the chunk by whose arrival `res.writableEnded` is true.
- Promise scheduling and concurrent requests are not modelled: each flow runs alone on the store.
- ChatRepo.SortDesc: `ORDER BY ... DESC` leaves the order of rows with equal `updatedAt` or `createdAt` unspecified; the model breaks such ties by table order (the earlier row first), which the database does not promise.
- String lengths are counted in characters, not UTF-16 code units; the 30-character chat name cut is stated on characters.
- `getUserById` of apps/server/src/modules/user/userService.ts:55-69 is not modelled; it is a plain lookup like `getMe`'s first step.
- `getAccountByUserId` and `createAccount` (src/modules/auth/authRepository.ts:66, 172-174) are not modelled; no modelled flow uses accounts.
- UserRepo.UserRepository.UpdateUserProfile: `Partial<User>` is narrowed to the name, image and plan columns, the only ones the callers set.
- StripeFlows.StripeService.CreateCheckoutSession: the provider's customer creation is an input, and the session's URL and line items are not modelled.
- Upload.GetPresignedUrl: src/modules/upload/uploadService.ts:46 and :49 read `appConfig.upload.maxFileSize` and `appConfig.upload.presignedUrl.expiresIn`, but the imported src/config/appConfig.ts defines no `upload` key, so as written every call throws a TypeError that the catch at :59-67 turns into the 500 response. The model assumes a configuration that defines `upload`, and its success path holds only under that assumption.
- apps/server's own `appConfig` is not part of this model; the values of src/config/appConfig.ts are used for apps/server as well. That they are in milliseconds is what apps/server/src/lib/token.ts:29 and apps/server/src/modules/auth/authService.ts:309 show (a `Date.now()` offset and a denylist lifetime).
- Clocks are `now` parameters; random bytes, uuids and generated row ids are inputs.
- Password hashing is foreign code (`lib/password.ts` is not part of this model). Properties about it assume a hasher that is sound (a hash verifies its password) and discerning (no other).

## Findings

| source | as written | input that shows it | evidently intended | confidence | as-written member | corrected member |
|---|---|---|---|---|---|---|
| apps/server/src/lib/token.ts:38 | The refresh lifetime in milliseconds (604800000) is passed as a numeric `expiresIn`, which the signing library reads as seconds: the token lives about 19 years. | A token issued at `t0`, signed out at `t0`, presented at `t0 + 7 days + 2 min`: the denylist entry has expired and the token still verifies. | The token expires with its cookie, seven days after issue, so a revoked session can never be refreshed. | not executed | TokenLib.RefreshTokenOutlivesCookie, AuthScenarios.RevokedRefreshTokenRevives | TokenLib.GenerateRefreshTokenIntended, TokenLib.RefreshTokenIntendedLifetime, AuthScenarios.RevokedRefreshTokenStaysRevoked |
| apps/server/src/modules/auth/authService.ts:37-64 | The `return` at line 49 leaves only the transaction callback, so an unverified existing user always falls through to `createUser`. The unique email rejects it and the response is the 500 error. | Sign-up with the email of a registered, unverified user while mail is up. | An existing e-mail gets the generic success message, after the expired token is resent, so the response does not reveal which addresses are registered. | not executed | AuthFlows.AuthService.SignUp | AuthFlows.AuthService.SignUpIntended |
| src/modules/chat/chatService.ts:94-95 | `slice(-10)` of the twenty newest messages, fetched newest first, keeps the ten OLDEST of them, newest first. | A room with 11 messages whose newest message is strictly newer than the rest: the newest (just stored) message is missing from the history. | The ten newest messages, in chronological order. The corrected history still includes the message just stored, so the prompt carries it twice, as the source already does for rooms with ten messages or fewer. | not executed | ChatFlows.PromptHistoryOmitsNewest | ChatFlows.NewestTen, ChatFlows.NewestTenIsChronological, ChatFlows.NewestTenKeepsNewest, ChatFlows.HistoryIntended, ChatFlows.PromptIntendedEndsWithNewest |
