/** The account pages (`modules/user/userService.ts`): the signed-in user's profile with
    settings and plan, the password change, and the settings and profile updates. Each
    operation answers with a `ServiceResponse`; the messages and status codes are the
    service's own. */
module UserFlows {
  import opened Common
  import opened Tables
  import Password
  import opened UserRepo
  import opened SubscriptionRepo

  const USER_NOT_FOUND := "User not found"
  const USER_FETCHED := "User fetched successfully"
  const INVALID_CREDENTIALS := "Invalid credentials"
  const SAME_PASSWORD := "New password must be different from current password"
  const PASSWORD_CHANGED := "Password changed successfully"
  const SETTINGS_NOT_FOUND := "User settings not found"
  const SETTINGS_UPDATED := "Settings updated successfully"
  const SETTINGS_UPDATE_ERROR := "An error occurred while updating settings."
  const SETTINGS_RETRIEVED := "Settings retrieved successfully"
  const PROFILE_UPDATED := "Profile updated successfully"
  const PROFILE_UPDATE_ERROR := "An error occurred while updating profile."

  /** The settings part of the profile: absent fields when the user has no settings row. */
  datatype SettingsView = SettingsView(isTwoFactorEnabled: Option<bool>, theme: Option<string>)

  /** The plan part of the profile. */
  datatype PlanView = PlanView(
    planType: string,
    status: SubscriptionStatus,
    currentPeriodStart: Option<int>,
    currentPeriodEnd: Option<int>,
    cancelAtPeriodEnd: bool)

  /** The profile `getMe` returns: every user column except the password, with the
      settings and plan views. */
  datatype Me = Me(
    id: string,
    email: string,
    name: Option<string>,
    emailVerified: Option<int>,
    image: Option<string>,
    plan: Option<string>,
    settings: SettingsView,
    subscription: PlanView)
  {
    /** The user row this profile was made from, given its password column. */
    function WithPassword(password: Option<string>): User {
      User(id, email, name, password, emailVerified, image, plan)
    }
  }

  function SettingsOf(s: Option<UserSettings>): (v: SettingsView)
    ensures s.None? ==> v == SettingsView(None, None)
    ensures s.Some? ==> v == SettingsView(Some(s.value.isTwoFactorEnabled), Some(s.value.theme))
  {
    match s
    case None => SettingsView(None, None)
    case Some(row) => SettingsView(Some(row.isTwoFactorEnabled), Some(row.theme))
  }

  /** A period end is reported only when it is set and strictly after the epoch. */
  predicate HasValidPeriodEnd(s: Option<Subscription>) {
    s.Some? && s.value.currentPeriodEnd.Some? && s.value.currentPeriodEnd.value > 0
  }

  /** The plan view of a subscription row, with the defaults for a user who has none:
      plan "free" (also for an empty plan name), status "active", no cancellation. */
  function PlanOf(s: Option<Subscription>): (v: PlanView)
    ensures s.None? ==> v == PlanView("free", Active, None, None, false)
    ensures v.planType != ""
    ensures s.Some? && s.value.planType != "" ==> v.planType == s.value.planType
    ensures s.Some? ==> v.status == s.value.status && v.currentPeriodStart == s.value.currentPeriodStart &&
                        v.cancelAtPeriodEnd == s.value.cancelAtPeriodEnd
    ensures v.currentPeriodEnd.Some? <==> HasValidPeriodEnd(s)
    ensures v.currentPeriodEnd.Some? ==> v.currentPeriodEnd == s.value.currentPeriodEnd && v.currentPeriodEnd.value > 0
  {
    match s
    case None => PlanView("free", Active, None, None, false)
    case Some(row) =>
      PlanView(if row.planType != "" then row.planType else "free",
               row.status,
               row.currentPeriodStart,
               if HasValidPeriodEnd(s) then row.currentPeriodEnd else None,
               row.cancelAtPeriodEnd)
  }

  /** The profile of a user row: the row without its password, with settings and plan. */
  function Profile(u: User, settings: Option<UserSettings>, sub: Option<Subscription>): (m: Me)
    ensures m.WithPassword(u.password) == u
    ensures m.settings == SettingsOf(settings) && m.subscription == PlanOf(sub)
  {
    Me(u.id, u.email, u.name, u.emailVerified, u.image, u.plan, SettingsOf(settings), PlanOf(sub))
  }

  class UserService {
    const users: UserRepository
    const subscriptions: SubscriptionRepository

    constructor (users: UserRepository, subscriptions: SubscriptionRepository)
      ensures this.users == users && this.subscriptions == subscriptions
    {
      this.users := users;
      this.subscriptions := subscriptions;
    }

    /** `getMe(userId)`: 404 for an unknown user; otherwise the user's profile, which
        is the stored row minus the password, with that user's settings and plan. */
    function GetMe(userId: string): (r: ServiceResponse<Me>)
      reads users, users.db`users, users.db`userSettings, subscriptions, subscriptions.db`subscriptions
      ensures users.GetUserById(userId).None? <==> r == Fail(USER_NOT_FOUND, NOT_FOUND)
      ensures r.success ==> r.message == USER_FETCHED && r.statusCode == OK && r.responseObject.Some?
      ensures r.success ==>
                var m := r.responseObject.value;
                var u := users.GetUserById(userId).value;
                m.WithPassword(u.password) == u &&
                m.settings == SettingsOf(users.GetUserSettingsByUserId(userId)) &&
                m.subscription == PlanOf(subscriptions.GetSubscriptionByUserId(userId))
    {
      match users.GetUserById(userId)
      case None => Fail(USER_NOT_FOUND, NOT_FOUND)
      case Some(u) =>
        Succeed(USER_FETCHED,
                Some(Profile(u, users.GetUserSettingsByUserId(userId), subscriptions.GetSubscriptionByUserId(userId))), OK)
    }

    /** `changePassword(userId, current, new)`, checked in this order: an unknown user
        or one without a password hash (an empty hash counts as none) is 404; a current
        password that does not verify is 401 "Invalid credentials"; a new password
        equal to the current one is 400. Only when all pass is the hash of the new
        password stored. With a sound and discerning hasher the new password then
        verifies and the old one no longer does. */
    method ChangePassword(userId: string, currentPassword: string, newPassword: string) returns (r: ServiceResponse<()>)
      modifies users.db`users
      ensures var u := old(users.GetUserById(userId));
              u.None? || !Truthy(u.value.password) ==> r == Fail(USER_NOT_FOUND, NOT_FOUND)
      ensures var u := old(users.GetUserById(userId));
              u.Some? && Truthy(u.value.password) && !users.hasher.verify(u.value.password.value, currentPassword) ==>
                r == Fail(INVALID_CREDENTIALS, UNAUTHORIZED)
      ensures var u := old(users.GetUserById(userId));
              u.Some? && Truthy(u.value.password) && users.hasher.verify(u.value.password.value, currentPassword) ==>
                (currentPassword == newPassword <==> r == Fail(SAME_PASSWORD, BAD_REQUEST))
      ensures var u := old(users.GetUserById(userId));
              r.success <==> u.Some? && Truthy(u.value.password) &&
                             users.hasher.verify(u.value.password.value, currentPassword) && currentPassword != newPassword
      ensures !r.success ==> users.db.users == old(users.db.users)
      ensures r.success ==> r == Succeed(PASSWORD_CHANGED, None, OK)
      ensures r.success ==>
                users.db.users == UpdateWhere(old(users.db.users), (u: User) => u.id == userId,
                                              (u: User) => u.(password := Some(users.hasher.hash(newPassword))))
      ensures r.success ==> users.GetUserById(userId).Some? &&
                            users.GetUserById(userId).value.password == Some(users.hasher.hash(newPassword))
      ensures r.success && Password.Sound(users.hasher) ==>
                users.hasher.verify(users.GetUserById(userId).value.password.value, newPassword)
      ensures r.success && Password.Discerning(users.hasher) ==>
                !users.hasher.verify(users.GetUserById(userId).value.password.value, currentPassword)
    {
      var user := users.GetUserById(userId);
      if user.None? || !Truthy(user.value.password) {
        return Fail(USER_NOT_FOUND, NOT_FOUND);
      }
      if !users.hasher.verify(user.value.password.value, currentPassword) {
        return Fail(INVALID_CREDENTIALS, UNAUTHORIZED);
      }
      if currentPassword == newPassword {
        return Fail(SAME_PASSWORD, BAD_REQUEST);
      }
      users.UpdateUserPassword(userId, newPassword);
      r := Succeed(PASSWORD_CHANGED, None, OK);
    }

    /** `updateUserSettings(userId, data)`: 404 when the user has no settings row and
        then nothing changes; an empty patch makes the update throw, giving 500;
        otherwise the row is updated and returned. */
    method UpdateUserSettings(userId: string, data: SettingsPatch) returns (r: ServiceResponse<UserSettings>)
      modifies users.db`userSettings
      ensures old(users.GetUserSettingsByUserId(userId)).None? ==>
                r == Fail(SETTINGS_NOT_FOUND, NOT_FOUND) && users.db.userSettings == old(users.db.userSettings)
      ensures old(users.GetUserSettingsByUserId(userId)).Some? && data.IsEmpty() ==>
                r == Fail(SETTINGS_UPDATE_ERROR, INTERNAL_SERVER_ERROR) && users.db.userSettings == old(users.db.userSettings)
      ensures old(users.GetUserSettingsByUserId(userId)).Some? && !data.IsEmpty() ==>
                r == Succeed(SETTINGS_UPDATED, Some(ApplySettings(old(users.GetUserSettingsByUserId(userId)).value, data)), OK) &&
                users.db.userSettings == UpdateWhere(old(users.db.userSettings), (s: UserSettings) => s.userId == userId,
                                                     (s: UserSettings) => ApplySettings(s, data))
      ensures r.success ==> users.GetUserSettingsByUserId(userId) == r.responseObject
    {
      var existing := users.GetUserSettingsByUserId(userId);
      if existing.None? {
        return Fail(SETTINGS_NOT_FOUND, NOT_FOUND);
      }
      var updated := users.UpdateUserSettings(userId, data);
      if updated.Failure? {
        return Fail(SETTINGS_UPDATE_ERROR, INTERNAL_SERVER_ERROR);
      }
      r := Succeed(SETTINGS_UPDATED, updated.value, OK);
    }

    /** `getUserSettings(userId)`: the user's settings row, or 404. */
    function GetUserSettings(userId: string): (r: ServiceResponse<UserSettings>)
      reads users, users.db`userSettings
      ensures users.GetUserSettingsByUserId(userId).None? <==> r == Fail(SETTINGS_NOT_FOUND, NOT_FOUND)
      ensures r.success ==> r.message == SETTINGS_RETRIEVED && r.statusCode == OK &&
                            r.responseObject.Some? && r.responseObject.value in users.db.userSettings &&
                            r.responseObject.value.userId == userId
    {
      match users.GetUserSettingsByUserId(userId)
      case None => Fail(SETTINGS_NOT_FOUND, NOT_FOUND)
      case Some(s) => Succeed(SETTINGS_RETRIEVED, Some(s), OK)
    }

    /** `updateProfile(userId, {name?, image?})`: an empty form makes the update throw,
        giving 500; an unknown user is 404 with nothing changed; otherwise the user's
        name and image are updated and the updated row returned. */
    method UpdateProfile(userId: string, name: Option<string>, image: Option<string>) returns (r: ServiceResponse<User>)
      modifies users.db`users
      ensures name.None? && image.None? ==>
                r == Fail(PROFILE_UPDATE_ERROR, INTERNAL_SERVER_ERROR) && users.db.users == old(users.db.users)
      ensures (name.Some? || image.Some?) && old(users.GetUserById(userId)).None? ==>
                r == Fail(USER_NOT_FOUND, NOT_FOUND) && users.db.users == old(users.db.users)
      ensures (name.Some? || image.Some?) && old(users.GetUserById(userId)).Some? ==>
                r == Succeed(PROFILE_UPDATED, Some(ApplyProfile(old(users.GetUserById(userId)).value, ProfilePatch(name, image, None))), OK)
      ensures name.Some? || image.Some? ==>
                users.db.users == UpdateWhere(old(users.db.users), (u: User) => u.id == userId,
                                              (u: User) => ApplyProfile(u, ProfilePatch(name, image, None)))
      ensures r.success ==> users.GetUserById(userId) == r.responseObject
    {
      var updated := users.UpdateUserProfile(userId, ProfilePatch(name, image, None));
      if updated.Failure? {
        return Fail(PROFILE_UPDATE_ERROR, INTERNAL_SERVER_ERROR);
      }
      if updated.value.None? {
        // No row matched the id, so the update wrote nothing.
        assert forall i :: 0 <= i < |users.db.users| ==> users.db.users[i] == old(users.db.users)[i];
        return Fail(USER_NOT_FOUND, NOT_FOUND);
      }
      r := Succeed(PROFILE_UPDATED, updated.value, OK);
    }
  }
}
