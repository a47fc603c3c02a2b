/**
 * The account tables behind authentication: Django's `User`, `Group` and
 * `Permission`, the app's `UserProfile` (one per user at most, kept inside the
 * user record) and `Role` (one per group), with the user-to-group and
 * group-to-permission links. Ids are the tables' primary keys.
 */
module Accounts {
  import opened Wrappers

  datatype Profile = Profile(userType: string, company: string, phone: string)

  /** `password` is None while the user has no usable password; hashing is not modelled. */
  datatype User = User(
    id: int,
    username: string,
    email: string,
    firstName: string,
    lastName: string,
    isActive: bool,
    password: Option<string>,
    profile: Option<Profile>)

  datatype Group = Group(id: int, name: string)

  datatype Permission = Permission(id: int, codename: string, name: string)

  datatype Role = Role(groupId: int, description: string)

  /** `user.profile.user_type`, or "unknown" when the profile does not exist. */
  function UserType(u: User): (t: string)
    ensures u.profile.Some? ==> t == u.profile.value.userType
    ensures u.profile.None? ==> t == "unknown"
  {
    match u.profile
    case Some(p) => p.userType
    case None => "unknown"
  }

  /** The guard `user.profile.user_type == 'admin'` with a missing profile caught as "not admin". */
  predicate IsAdminAccount(u: User)
  {
    u.profile.Some? && u.profile.value.userType == "admin"
  }

  const ClaimKeys: set<string> := {"username", "email", "user_type"}

  /**
   * The private claims login and `get_token` add to a token: username, email and
   * the user type; every other claim of `base` is kept.
   */
  function UserClaims(base: map<string, string>, u: User): (claims: map<string, string>)
    ensures claims.Keys == base.Keys + ClaimKeys
    ensures claims["username"] == u.username && claims["email"] == u.email && claims["user_type"] == UserType(u)
    ensures forall k :: k in base && k !in ClaimKeys ==> claims[k] == base[k]
  {
    base["username" := u.username]["email" := u.email]["user_type" := UserType(u)]
  }

  /** `User.objects.get(pk=id)`: None stands for `User.DoesNotExist`. */
  function FindUser(users: seq<User>, id: int): (r: Option<User>)
    ensures r.None? <==> forall u :: u in users ==> u.id != id
    ensures r.Some? ==> r.value in users && r.value.id == id
  {
    if users == [] then None
    else if users[0].id == id then Some(users[0])
    else FindUser(users[1..], id)
  }

  /** The id the table gives its next row: above every id in use. */
  function NextId<T(!new)>(rows: seq<T>, id: T -> int): (n: int)
    ensures n >= 1
    ensures forall x :: x in rows ==> id(x) < n
  {
    if rows == [] then 1
    else
      var rest := NextId(rows[1..], id);
      if id(rows[0]) < rest then rest else id(rows[0]) + 1
  }

  /** The tables, as one request or command sees and changes them. */
  class Directory {
    var users: seq<User>
    var groups: seq<Group>
    var permissions: seq<Permission>
    var roles: seq<Role>
    /** User id to the ids of the user's groups (`user.groups`). */
    var memberships: map<int, set<int>>
    /** Group id to the ids of the group's permissions (`group.permissions`). */
    var grants: map<int, set<int>>

    constructor()
      ensures users == [] && groups == [] && permissions == [] && roles == []
      ensures memberships == map[] && grants == map[]
    {
      users := [];
      groups := [];
      permissions := [];
      roles := [];
      memberships := map[];
      grants := map[];
    }

    /** The group ids of user `id`; a user never linked has none. */
    function GroupsOf(id: int): (gs: set<int>)
      reads this`memberships
      ensures id !in memberships ==> gs == {}
      ensures id in memberships ==> gs == memberships[id]
    {
      if id in memberships then memberships[id] else {}
    }

    /** The permission ids of group `id`. */
    function GrantsOf(id: int): (ps: set<int>)
      reads this`grants
      ensures id !in grants ==> ps == {}
      ensures id in grants ==> ps == grants[id]
    {
      if id in grants then grants[id] else {}
    }

    /** `user.groups.add(group)`: a set union, so adding twice is adding once. */
    method AddToGroup(userId: int, groupId: int)
      modifies this`memberships
      ensures memberships == old(memberships)[userId := old(GroupsOf(userId)) + {groupId}]
      ensures groupId in old(GroupsOf(userId)) ==> memberships == old(memberships)
      ensures GroupsOf(userId) == old(GroupsOf(userId)) + {groupId}
      ensures forall u :: u != userId ==> GroupsOf(u) == old(GroupsOf(u))
    {
      if groupId in GroupsOf(userId) {
        assert GroupsOf(userId) + {groupId} == memberships[userId];
        assert memberships[userId := GroupsOf(userId) + {groupId}] == memberships;
      }
      memberships := memberships[userId := GroupsOf(userId) + {groupId}];
    }

    /** `group.permissions.add(permission)`. */
    method Grant(groupId: int, permissionId: int)
      modifies this`grants
      ensures grants == old(grants)[groupId := old(GrantsOf(groupId)) + {permissionId}]
      ensures permissionId in old(GrantsOf(groupId)) ==> grants == old(grants)
      ensures GrantsOf(groupId) == old(GrantsOf(groupId)) + {permissionId}
      ensures forall g :: g != groupId ==> GrantsOf(g) == old(GrantsOf(g))
    {
      if permissionId in GrantsOf(groupId) {
        assert GrantsOf(groupId) + {permissionId} == grants[groupId];
        assert grants[groupId := GrantsOf(groupId) + {permissionId}] == grants;
      }
      grants := grants[groupId := GrantsOf(groupId) + {permissionId}];
    }
  }
}
