/**
 * The account serializers (`authentication/serializers.py`): the password check of
 * `UserSerializer.validate` and the account creation of `UserSerializer.create`.
 * The token claims of `get_token` are `Accounts.UserClaims`, shared with login.
 */
module AuthSerializers {
  import opened Wrappers
  import opened Json
  import opened Accounts

  datatype ValidationError = PasswordMismatch

  /**
   * `validate(attrs)`. Both fields are required by the serializer, so they are
   * present whenever `validate` runs; `confirm_password` is popped either way.
   */
  function Validate(attrs: map<string, Json>): (r: Result<map<string, Json>, ValidationError>)
    requires "password" in attrs && "confirm_password" in attrs
    ensures r.Err? <==> attrs["password"] != attrs["confirm_password"]
    ensures r.Ok? ==> "confirm_password" !in r.value
    ensures r.Ok? ==> forall k :: k in attrs && k != "confirm_password" ==> k in r.value && r.value[k] == attrs[k]
    ensures r.Ok? ==> r.value.Keys <= attrs.Keys
  {
    var password := attrs["password"];
    var rest := attrs - {"confirm_password"};
    if password != attrs["confirm_password"] then Err(PasswordMismatch) else Ok(rest)
  }

  /** The nested `profile` data; a field left out takes the model's default. */
  datatype ProfileData = ProfileData(userType: Option<string>, company: Option<string>, phone: Option<string>)

  /** What `create` reads of the validated data; an absent `profile` is None. */
  datatype NewAccount = NewAccount(
    username: string,
    email: string,
    firstName: string,
    lastName: string,
    password: string,
    profile: Option<ProfileData>)

  /** `UserProfile.objects.create(user=user, **profile_data)`: `user_type` defaults to "buyer", the rest to "". */
  function ProfileOf(data: ProfileData): (p: Profile)
    ensures data.userType.None? ==> p.userType == "buyer"
    ensures data.userType.Some? ==> p.userType == data.userType.value
  {
    Profile(data.userType.GetOr("buyer"), data.company.GetOr(""), data.phone.GetOr(""))
  }

  /** `Group.objects.get(name=name)`. */
  function FindGroupByName(groups: seq<Group>, name: string): (r: Option<Group>)
    ensures r.None? <==> forall g :: g in groups ==> g.name != name
    ensures r.Some? ==> r.value in groups && r.value.name == name
  {
    if groups == [] then None
    else if groups[0].name == name then Some(groups[0])
    else FindGroupByName(groups[1..], name)
  }

  /** The profile data `create` pops: the given one, or `{}`. */
  function PoppedProfile(account: NewAccount): ProfileData
  {
    account.profile.GetOr(ProfileData(None, None, None))
  }

  /** The group `create` adds the new user to: the one named by an explicit `user_type`, if it exists. */
  function DefaultGroup(account: NewAccount, groups: seq<Group>): (g: Option<Group>)
    ensures g.Some? <==>
      PoppedProfile(account).userType.Some? && FindGroupByName(groups, PoppedProfile(account).userType.value).Some?
    ensures g.Some? ==> g.value in groups && g.value.name == PoppedProfile(account).userType.value
  {
    var data := PoppedProfile(account);
    if data.userType.Some? then FindGroupByName(groups, data.userType.value) else None
  }

  /**
   * A user registering without a profile gets the "buyer" profile but no group,
   * since `create` only looks a group up for an explicit `user_type`.
   */
  lemma DefaultBuyerHasNoGroup(account: NewAccount, groups: seq<Group>)
    requires account.profile.None?
    ensures ProfileOf(PoppedProfile(account)).userType == "buyer"
    ensures DefaultGroup(account, groups).None?
  {
  }

  /** `UserSerializer.create(validated_data)`: one new active user, its profile, and at most one group. */
  method Create(dir: Directory, account: NewAccount) returns (user: User)
    modifies dir`users, dir`memberships
    ensures user.id !in set u | u in old(dir.users) :: u.id
    ensures user == User(user.id, account.username, account.email, account.firstName, account.lastName,
                         true, Some(account.password), Some(ProfileOf(PoppedProfile(account))))
    ensures dir.users == old(dir.users) + [user]
    ensures DefaultGroup(account, old(dir.groups)).None? ==> dir.memberships == old(dir.memberships)
    ensures DefaultGroup(account, old(dir.groups)).Some? ==>
      dir.memberships == old(dir.memberships)[user.id := old(dir.GroupsOf(user.id)) + {DefaultGroup(account, old(dir.groups)).value.id}]
  {
    var profileData := PoppedProfile(account);
    var id := NextId(dir.users, (u: User) => u.id);
    user := User(id, account.username, account.email, account.firstName, account.lastName, true,
                 Some(account.password), Some(ProfileOf(profileData)));
    dir.users := dir.users + [user];
    if profileData.userType.Some? {
      var group := FindGroupByName(dir.groups, profileData.userType.value);
      if group.Some? {
        dir.AddToGroup(user.id, group.value.id);
      }
    }
  }
}
