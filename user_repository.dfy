/** The profile store (`modules/user/userRepository.ts`): the users and user-settings
    tables, looked up by id and updated in place. An update whose column set is empty
    is refused by the query builder, which raises "No values to set"; the services
    see that as a thrown error. */
module UserRepo {
  import opened Common
  import opened Tables
  import Password

  /** The error the query builder raises for an update that sets no column. */
  const NO_VALUES_TO_SET := "No values to set"

  /** The `Partial<User>` the callers pass: the profile form sends a name and an image,
      the billing handlers a plan. An absent field is not part of the update. */
  datatype ProfilePatch = ProfilePatch(name: Option<string>, image: Option<string>, plan: Option<string>) {
    predicate IsEmpty() {
      name.None? && image.None? && plan.None?
    }
  }

  /** `{ plan }`, the patch the billing handlers send. */
  function PlanPatch(plan: string): (p: ProfilePatch)
    ensures !p.IsEmpty()
  {
    ProfilePatch(None, None, Some(plan))
  }

  /** A user row after the profile update: each given column takes its new value and
      every other column keeps its old one. */
  function ApplyProfile(u: User, p: ProfilePatch): (r: User)
    ensures r.(name := u.name, image := u.image, plan := u.plan) == u
    ensures p.name.Some? ==> r.name == p.name
    ensures p.image.Some? ==> r.image == p.image
    ensures p.plan.Some? ==> r.plan == p.plan
    ensures p.name.None? ==> r.name == u.name
    ensures p.image.None? ==> r.image == u.image
    ensures p.plan.None? ==> r.plan == u.plan
  {
    u.(name := p.name.OrElse(u.name), image := p.image.OrElse(u.image), plan := p.plan.OrElse(u.plan))
  }

  /** The settings form (`UpdateUserSettings`): a theme and the two-factor switch, each
      optional. */
  datatype SettingsPatch = SettingsPatch(theme: Option<string>, isTwoFactorEnabled: Option<bool>) {
    predicate IsEmpty() {
      theme.None? && isTwoFactorEnabled.None?
    }
  }

  /** A settings row after the update: the given columns change, the rest stays. */
  function ApplySettings(s: UserSettings, p: SettingsPatch): (r: UserSettings)
    ensures r.id == s.id && r.userId == s.userId
    ensures r.theme == (if p.theme.Some? then p.theme.value else s.theme)
    ensures r.isTwoFactorEnabled == (if p.isTwoFactorEnabled.Some? then p.isTwoFactorEnabled.value else s.isTwoFactorEnabled)
    ensures p.IsEmpty() ==> r == s
  {
    s.(theme := p.theme.GetOr(s.theme), isTwoFactorEnabled := p.isTwoFactorEnabled.GetOr(s.isTwoFactorEnabled))
  }

  class UserRepository {
    const db: Database
    const hasher: Password.Hasher

    constructor (db: Database, hasher: Password.Hasher)
      ensures this.db == db && this.hasher == hasher
    {
      this.db := db;
      this.hasher := hasher;
    }

    /** `getUserById`: the first user with that id, or nothing. */
    function GetUserById(id: string): (r: Option<User>)
      reads db`users
      ensures r.Some? ==> r.value in db.users && r.value.id == id
      ensures r.None? <==> forall i :: 0 <= i < |db.users| ==> db.users[i].id != id
    {
      FirstWhere(db.users, (u: User) => u.id == id)
    }

    /** `getUserSettingsByUserId`: the first settings row of that user, or nothing. */
    function GetUserSettingsByUserId(userId: string): (r: Option<UserSettings>)
      reads db`userSettings
      ensures r.Some? ==> r.value in db.userSettings && r.value.userId == userId
      ensures r.None? <==> forall i :: 0 <= i < |db.userSettings| ==> db.userSettings[i].userId != userId
    {
      FirstWhere(db.userSettings, (s: UserSettings) => s.userId == userId)
    }

    /** `updateUserProfile(userId, data)`: the given columns of that user's row are
        overwritten, and the updated row is returned (nothing for an unknown id). A
        later lookup of the user sees the returned row, and every other user's
        lookup is unaffected. An empty patch is refused and changes nothing. */
    method UpdateUserProfile(userId: string, data: ProfilePatch) returns (r: Result<Option<User>, string>)
      modifies db`users
      ensures data.IsEmpty() ==> r == Failure(NO_VALUES_TO_SET) && db.users == old(db.users)
      ensures !data.IsEmpty() ==>
                db.users == UpdateWhere(old(db.users), (u: User) => u.id == userId, (u: User) => ApplyProfile(u, data))
      ensures !data.IsEmpty() ==> r.Success? && r.value == GetUserById(userId)
      ensures r.Success? ==> (r.value.None? <==> old(GetUserById(userId)).None?)
      ensures r.Success? && r.value.Some? ==> r.value.value == ApplyProfile(old(GetUserById(userId)).value, data)
      ensures forall other :: other != userId ==> GetUserById(other) == old(GetUserById(other))
    {
      if data.IsEmpty() {
        return Failure(NO_VALUES_TO_SET);
      }
      var before := db.users;
      db.users := UpdateWhere(db.users, (u: User) => u.id == userId, (u: User) => ApplyProfile(u, data));
      FirstWhereAfterUpdate(before, (u: User) => u.id == userId, (u: User) => ApplyProfile(u, data));
      forall other | other != userId
        ensures GetUserById(other) == FirstWhere(before, (u: User) => u.id == other)
      {
        FirstWhereOtherAfterUpdate(before, (u: User) => u.id == userId, (u: User) => ApplyProfile(u, data), (u: User) => u.id == other);
      }
      r := Success(GetUserById(userId));
    }

    /** `updateUserPassword(userId, newPassword)`: the user's stored password becomes
        the hash of the new password, never the plaintext; nothing else changes. */
    method UpdateUserPassword(userId: string, newPassword: string)
      modifies db`users
      ensures db.users == UpdateWhere(old(db.users), (u: User) => u.id == userId, (u: User) => u.(password := Some(hasher.hash(newPassword))))
      ensures GetUserById(userId) == (match old(GetUserById(userId))
                                     case None => None
                                     case Some(u) => Some(u.(password := Some(hasher.hash(newPassword)))))
      ensures forall other :: other != userId ==> GetUserById(other) == old(GetUserById(other))
    {
      var before := db.users;
      db.users := UpdateWhere(db.users, (u: User) => u.id == userId, (u: User) => u.(password := Some(hasher.hash(newPassword))));
      FirstWhereAfterUpdate(before, (u: User) => u.id == userId, (u: User) => u.(password := Some(hasher.hash(newPassword))));
      forall other | other != userId
        ensures GetUserById(other) == FirstWhere(before, (u: User) => u.id == other)
      {
        FirstWhereOtherAfterUpdate(before, (u: User) => u.id == userId,
                                   (u: User) => u.(password := Some(hasher.hash(newPassword))), (u: User) => u.id == other);
      }
    }

    /** `updateUserSettings(userId, data)`: the given columns of that user's settings
        row change and the updated row is returned; other users' settings stay. An
        empty patch is refused and changes nothing. */
    method UpdateUserSettings(userId: string, data: SettingsPatch) returns (r: Result<Option<UserSettings>, string>)
      modifies db`userSettings
      ensures data.IsEmpty() ==> r == Failure(NO_VALUES_TO_SET) && db.userSettings == old(db.userSettings)
      ensures !data.IsEmpty() ==>
                db.userSettings == UpdateWhere(old(db.userSettings), (s: UserSettings) => s.userId == userId,
                                               (s: UserSettings) => ApplySettings(s, data))
      ensures !data.IsEmpty() ==> r.Success? && r.value == GetUserSettingsByUserId(userId)
      ensures r.Success? ==> (r.value.None? <==> old(GetUserSettingsByUserId(userId)).None?)
      ensures r.Success? && r.value.Some? ==> r.value.value == ApplySettings(old(GetUserSettingsByUserId(userId)).value, data)
      ensures forall other :: other != userId ==> GetUserSettingsByUserId(other) == old(GetUserSettingsByUserId(other))
    {
      if data.IsEmpty() {
        return Failure(NO_VALUES_TO_SET);
      }
      var before := db.userSettings;
      db.userSettings := UpdateWhere(db.userSettings, (s: UserSettings) => s.userId == userId, (s: UserSettings) => ApplySettings(s, data));
      FirstWhereAfterUpdate(before, (s: UserSettings) => s.userId == userId, (s: UserSettings) => ApplySettings(s, data));
      forall other | other != userId
        ensures GetUserSettingsByUserId(other) == FirstWhere(before, (s: UserSettings) => s.userId == other)
      {
        FirstWhereOtherAfterUpdate(before, (s: UserSettings) => s.userId == userId,
                                   (s: UserSettings) => ApplySettings(s, data), (s: UserSettings) => s.userId == other);
      }
      r := Success(GetUserSettingsByUserId(userId));
    }
  }
}
