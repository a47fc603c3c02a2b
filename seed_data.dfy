/**
 * The `seed_data` management command: groups, roles and pricing permissions,
 * four test accounts, twenty test products with a year of history, and four
 * market conditions. Every row goes through `get_or_create`, which returns the
 * first row with the lookup key or appends a new one built from the defaults.
 * The random draws of the command are the `Draws` parameter; `today` is
 * `timezone.now().date()`.
 */
module SeedData {
  import opened Wrappers
  import opened Calendar
  import opened Json
  import opened Models
  import opened Accounts
  import Text
  import Services
  import Market
  import Permissions

  // ---------------------------------------------------------------------------
  // get_or_create
  // ---------------------------------------------------------------------------

  /** `Model.objects.get(**lookup)` over `rows`, where `key(row) == k` is the lookup. */
  function FirstWithKey<T(!new), K(==)>(rows: seq<T>, key: T -> K, k: K): (r: Option<T>)
    ensures r.Some? ==> r.value in rows && key(r.value) == k
  {
    if rows == [] then None
    else if key(rows[0]) == k then Some(rows[0])
    else FirstWithKey(rows[1..], key, k)
  }

  /** Appending a row does not change what an earlier lookup finds, and a failed lookup finds the new row. */
  lemma {:induction false} FirstWithKeyAppend<T(!new), K>(rows: seq<T>, x: T, key: T -> K, k: K)
    ensures FirstWithKey(rows + [x], key, k) ==
      if FirstWithKey(rows, key, k).Some? then FirstWithKey(rows, key, k)
      else if key(x) == k then Some(x) else None
  {
    if rows != [] {
      assert (rows + [x])[1..] == rows[1..] + [x];
      FirstWithKeyAppend(rows[1..], x, key, k);
    }
  }

  // ---------------------------------------------------------------------------
  // Groups, roles and permissions
  // ---------------------------------------------------------------------------

  function GroupName(g: Group): string { g.name }
  function GroupId(g: Group): int { g.id }
  function RoleGroup(r: Role): int { r.groupId }
  function PermissionId(p: Permission): int { p.id }
  function PermissionKey(p: Permission): (string, string) { (p.codename, p.name) }

  const ViewCodename := Permissions.ViewCodename
  const ViewName := "Can view product pricing information"
  const OptimizeCodename := Permissions.OptimizeCodename
  const OptimizeName := "Can optimize product pricing"

  /** Primary keys of the group table are unique. */
  predicate GroupIdsUnique(groups: seq<Group>)
  {
    forall i, j :: 0 <= i < j < |groups| ==> groups[i].id != groups[j].id
  }

  /** Two groups of a table with unique ids and different names have different ids. */
  lemma DistinctGroups(groups: seq<Group>, a: Group, b: Group)
    requires GroupIdsUnique(groups) && a in groups && b in groups && a.name != b.name
    ensures a.id != b.id
  {
    var i :| 0 <= i < |groups| && groups[i] == a;
    var j :| 0 <= j < |groups| && groups[j] == b;
    assert i != j;
  }

  /** `Group.objects.get_or_create(name=name)`. */
  method GetOrCreateGroup(dir: Directory, name: string) returns (g: Group)
    requires GroupIdsUnique(dir.groups)
    modifies dir`groups
    ensures GroupIdsUnique(dir.groups)
    ensures FirstWithKey(dir.groups, GroupName, name) == Some(g)
    ensures forall n :: old(FirstWithKey(dir.groups, GroupName, n)).Some? ==>
      FirstWithKey(dir.groups, GroupName, n) == old(FirstWithKey(dir.groups, GroupName, n))
    ensures old(FirstWithKey(dir.groups, GroupName, name)).Some? ==> dir.groups == old(dir.groups)
    ensures old(FirstWithKey(dir.groups, GroupName, name)).None? ==> dir.groups == old(dir.groups) + [g]
  {
    var found := FirstWithKey(dir.groups, GroupName, name);
    if found.Some? {
      return found.value;
    }
    g := Group(NextId(dir.groups, GroupId), name);
    forall n | FirstWithKey(dir.groups, GroupName, n).Some?
      ensures FirstWithKey(dir.groups + [g], GroupName, n) == FirstWithKey(dir.groups, GroupName, n)
    {
      FirstWithKeyAppend(dir.groups, g, GroupName, n);
    }
    FirstWithKeyAppend(dir.groups, g, GroupName, name);
    forall x | x in dir.groups
      ensures x.id < g.id
    {
      assert GroupId(x) < g.id;
    }
    dir.groups := dir.groups + [g];
  }

  /** `Role.objects.get_or_create(group=group, defaults={'description': ...})`. */
  method GetOrCreateRole(dir: Directory, group: Group)
    modifies dir`roles
    ensures FirstWithKey(dir.roles, RoleGroup, group.id).Some?
    ensures forall k :: old(FirstWithKey(dir.roles, RoleGroup, k)).Some? ==>
      FirstWithKey(dir.roles, RoleGroup, k) == old(FirstWithKey(dir.roles, RoleGroup, k))
    ensures old(FirstWithKey(dir.roles, RoleGroup, group.id)).Some? ==> dir.roles == old(dir.roles)
    ensures old(FirstWithKey(dir.roles, RoleGroup, group.id)).None? ==>
      dir.roles == old(dir.roles) + [Role(group.id, "Role for " + group.name + " users")]
  {
    if FirstWithKey(dir.roles, RoleGroup, group.id).None? {
      var role := Role(group.id, "Role for " + group.name + " users");
      forall k | FirstWithKey(dir.roles, RoleGroup, k).Some?
        ensures FirstWithKey(dir.roles + [role], RoleGroup, k) == FirstWithKey(dir.roles, RoleGroup, k)
      {
        FirstWithKeyAppend(dir.roles, role, RoleGroup, k);
      }
      FirstWithKeyAppend(dir.roles, role, RoleGroup, group.id);
      dir.roles := dir.roles + [role];
    }
  }

  /** `Permission.objects.get_or_create(codename=..., name=..., content_type=<Product>)`. */
  method GetOrCreatePermission(dir: Directory, codename: string, name: string) returns (p: Permission)
    modifies dir`permissions
    ensures p.codename == codename && p.name == name
    ensures FirstWithKey(dir.permissions, PermissionKey, (codename, name)) == Some(p)
    ensures forall c: string, n: string :: old(FirstWithKey(dir.permissions, PermissionKey, (c, n))).Some? ==>
      FirstWithKey(dir.permissions, PermissionKey, (c, n)) == old(FirstWithKey(dir.permissions, PermissionKey, (c, n)))
    ensures old(FirstWithKey(dir.permissions, PermissionKey, (codename, name))).Some? ==>
      dir.permissions == old(dir.permissions)
    ensures old(FirstWithKey(dir.permissions, PermissionKey, (codename, name))).None? ==>
      dir.permissions == old(dir.permissions) + [p]
  {
    var found := FirstWithKey(dir.permissions, PermissionKey, (codename, name));
    if found.Some? {
      return found.value;
    }
    p := Permission(NextId(dir.permissions, PermissionId), codename, name);
    forall k | FirstWithKey(dir.permissions, PermissionKey, k).Some?
      ensures FirstWithKey(dir.permissions + [p], PermissionKey, k) == FirstWithKey(dir.permissions, PermissionKey, k)
    {
      FirstWithKeyAppend(dir.permissions, p, PermissionKey, k);
    }
    FirstWithKeyAppend(dir.permissions, p, PermissionKey, (codename, name));
    dir.permissions := dir.permissions + [p];
  }

  /** The pricing permissions the command grants each group, by codename. */
  function PricingGrants(groupName: string): (codes: set<string>)
    ensures OptimizeCodename in codes ==> ViewCodename in codes
  {
    if groupName == "admin" || groupName == "analyst" then {ViewCodename, OptimizeCodename}
    else if groupName == "buyer" then {ViewCodename}
    else {}
  }

  /** `has_perm` names: the app label and the codename. */
  function PermissionNames(codes: set<string>): set<string>
  {
    set c | c in codes :: Permissions.AppPrefix + c
  }

  /**
   * With only the seeded grants, `CanViewProductPricing` lets in admins, analysts and
   * buyers, and `CanOptimizeProductPricing` only admins and analysts.
   */
  lemma SeededPricingAccess(groupName: string)
    requires groupName in {"admin", "buyer", "analyst", "supplier"}
    ensures Permissions.CanViewProductPricing(p => p in PermissionNames(PricingGrants(groupName)))
            <==> groupName in {"admin", "analyst", "buyer"}
    ensures Permissions.CanOptimizeProductPricing(p => p in PermissionNames(PricingGrants(groupName)))
            <==> groupName in {"admin", "analyst"}
  {
    var codes := PricingGrants(groupName);
    assert Permissions.ViewPricing in PermissionNames(codes) <==> ViewCodename in codes by {
      PermissionNameIn(codes, ViewCodename);
    }
    assert Permissions.OptimizePricing in PermissionNames(codes) <==> OptimizeCodename in codes by {
      PermissionNameIn(codes, OptimizeCodename);
    }
  }

  /** The app label prefix is the same for every name, so a codename is granted iff its name is. */
  lemma PermissionNameIn(codes: set<string>, c: string)
    ensures Permissions.AppPrefix + c in PermissionNames(codes) <==> c in codes
  {
    var n := |Permissions.AppPrefix|;
    if Permissions.AppPrefix + c in PermissionNames(codes) {
      var d :| d in codes && Permissions.AppPrefix + d == Permissions.AppPrefix + c;
      assert d == (Permissions.AppPrefix + d)[n..] == (Permissions.AppPrefix + c)[n..] == c;
    }
  }

  function NamedGroup(dir: Directory, name: string): Option<Group>
    reads dir`groups
  {
    FirstWithKey(dir.groups, GroupName, name)
  }

  function NamedPermission(dir: Directory, codename: string, name: string): Option<Permission>
    reads dir`permissions
  {
    FirstWithKey(dir.permissions, PermissionKey, (codename, name))
  }

  /** The permission ids `grants` gives group `id`. */
  function GrantsIn(grants: map<int, set<int>>, id: int): set<int>
  {
    if id in grants then grants[id] else {}
  }

  /**
   * Everything the first part of the command creates or grants is in place in
   * these tables: the four groups with their roles, the two permissions, and the
   * grants of `PricingGrants`.
   */
  predicate GroupsSeeded(groups: seq<Group>, roles: seq<Role>, permissions: seq<Permission>, grants: map<int, set<int>>)
  {
    var admin := FirstWithKey(groups, GroupName, "admin");
    var buyer := FirstWithKey(groups, GroupName, "buyer");
    var analyst := FirstWithKey(groups, GroupName, "analyst");
    var supplier := FirstWithKey(groups, GroupName, "supplier");
    var view := FirstWithKey(permissions, PermissionKey, (ViewCodename, ViewName));
    var optimize := FirstWithKey(permissions, PermissionKey, (OptimizeCodename, OptimizeName));
    && admin.Some? && buyer.Some? && analyst.Some? && supplier.Some?
    && FirstWithKey(roles, RoleGroup, admin.value.id).Some? && FirstWithKey(roles, RoleGroup, buyer.value.id).Some?
    && FirstWithKey(roles, RoleGroup, analyst.value.id).Some? && FirstWithKey(roles, RoleGroup, supplier.value.id).Some?
    && view.Some? && optimize.Some?
    && view.value.id in GrantsIn(grants, admin.value.id) && optimize.value.id in GrantsIn(grants, admin.value.id)
    && view.value.id in GrantsIn(grants, analyst.value.id) && optimize.value.id in GrantsIn(grants, analyst.value.id)
    && view.value.id in GrantsIn(grants, buyer.value.id)
  }

  /** The tables hold the four named groups with their roles, the two permissions and the pricing grants. */
  lemma GroupsSeededIntro(groups: seq<Group>, roles: seq<Role>, permissions: seq<Permission>, grants: map<int, set<int>>,
                          admin: Group, buyer: Group, analyst: Group, supplier: Group, view: Permission, optimize: Permission)
    requires FirstWithKey(groups, GroupName, "admin") == Some(admin)
    requires FirstWithKey(groups, GroupName, "buyer") == Some(buyer)
    requires FirstWithKey(groups, GroupName, "analyst") == Some(analyst)
    requires FirstWithKey(groups, GroupName, "supplier") == Some(supplier)
    requires FirstWithKey(permissions, PermissionKey, (ViewCodename, ViewName)) == Some(view)
    requires FirstWithKey(permissions, PermissionKey, (OptimizeCodename, OptimizeName)) == Some(optimize)
    requires FirstWithKey(roles, RoleGroup, admin.id).Some? && FirstWithKey(roles, RoleGroup, buyer.id).Some?
    requires FirstWithKey(roles, RoleGroup, analyst.id).Some? && FirstWithKey(roles, RoleGroup, supplier.id).Some?
    requires {view.id, optimize.id} <= GrantsIn(grants, admin.id) && {view.id, optimize.id} <= GrantsIn(grants, analyst.id)
    requires view.id in GrantsIn(grants, buyer.id)
    ensures GroupsSeeded(groups, roles, permissions, grants)
  {
  }

  /** In seeded tables, the groups and permissions the lookups find have their roles and pricing grants. */
  lemma GroupsSeededElim(groups: seq<Group>, roles: seq<Role>, permissions: seq<Permission>, grants: map<int, set<int>>,
                         admin: Group, buyer: Group, analyst: Group, supplier: Group, view: Permission, optimize: Permission)
    requires GroupsSeeded(groups, roles, permissions, grants)
    requires FirstWithKey(groups, GroupName, "admin") == Some(admin)
    requires FirstWithKey(groups, GroupName, "buyer") == Some(buyer)
    requires FirstWithKey(groups, GroupName, "analyst") == Some(analyst)
    requires FirstWithKey(groups, GroupName, "supplier") == Some(supplier)
    requires FirstWithKey(permissions, PermissionKey, (ViewCodename, ViewName)) == Some(view)
    requires FirstWithKey(permissions, PermissionKey, (OptimizeCodename, OptimizeName)) == Some(optimize)
    ensures FirstWithKey(roles, RoleGroup, admin.id).Some? && FirstWithKey(roles, RoleGroup, buyer.id).Some?
    ensures FirstWithKey(roles, RoleGroup, analyst.id).Some? && FirstWithKey(roles, RoleGroup, supplier.id).Some?
    ensures {view.id, optimize.id} <= GrantsIn(grants, admin.id) && {view.id, optimize.id} <= GrantsIn(grants, analyst.id)
    ensures view.id in GrantsIn(grants, buyer.id)
  {
  }

  /** The four groups, in the order the command creates them. */
  method SeedGroupTable(dir: Directory) returns (admin: Group, buyer: Group, analyst: Group, supplier: Group)
    requires GroupIdsUnique(dir.groups)
    modifies dir`groups
    ensures GroupIdsUnique(dir.groups)
    ensures NamedGroup(dir, "admin") == Some(admin) && NamedGroup(dir, "buyer") == Some(buyer)
    ensures NamedGroup(dir, "analyst") == Some(analyst) && NamedGroup(dir, "supplier") == Some(supplier)
    ensures admin.id != buyer.id && admin.id != analyst.id && admin.id != supplier.id
    ensures buyer.id != analyst.id && buyer.id != supplier.id && analyst.id != supplier.id
    ensures old(NamedGroup(dir, "admin").Some? && NamedGroup(dir, "buyer").Some? &&
                NamedGroup(dir, "analyst").Some? && NamedGroup(dir, "supplier").Some?) ==>
      dir.groups == old(dir.groups)
  {
    admin := GetOrCreateGroup(dir, "admin");
    buyer := GetOrCreateGroup(dir, "buyer");
    analyst := GetOrCreateGroup(dir, "analyst");
    supplier := GetOrCreateGroup(dir, "supplier");
    DistinctGroups(dir.groups, admin, buyer);
    DistinctGroups(dir.groups, admin, analyst);
    DistinctGroups(dir.groups, admin, supplier);
    DistinctGroups(dir.groups, buyer, analyst);
    DistinctGroups(dir.groups, buyer, supplier);
    DistinctGroups(dir.groups, analyst, supplier);
  }

  predicate HasRoleRow(dir: Directory, g: Group)
    reads dir`roles
  {
    FirstWithKey(dir.roles, RoleGroup, g.id).Some?
  }

  /** One role per group. */
  method SeedRoles(dir: Directory, admin: Group, buyer: Group, analyst: Group, supplier: Group)
    modifies dir`roles
    ensures HasRoleRow(dir, admin) && HasRoleRow(dir, buyer) && HasRoleRow(dir, analyst) && HasRoleRow(dir, supplier)
    ensures old(HasRoleRow(dir, admin) && HasRoleRow(dir, buyer) && HasRoleRow(dir, analyst) && HasRoleRow(dir, supplier)) ==>
      dir.roles == old(dir.roles)
  {
    GetOrCreateRole(dir, admin);
    GetOrCreateRole(dir, buyer);
    GetOrCreateRole(dir, analyst);
    GetOrCreateRole(dir, supplier);
  }

  /** The two pricing permissions. */
  method SeedPermissions(dir: Directory) returns (view: Permission, optimize: Permission)
    modifies dir`permissions
    ensures NamedPermission(dir, ViewCodename, ViewName) == Some(view)
    ensures NamedPermission(dir, OptimizeCodename, OptimizeName) == Some(optimize)
    ensures old(NamedPermission(dir, ViewCodename, ViewName).Some? &&
                NamedPermission(dir, OptimizeCodename, OptimizeName).Some?) ==>
      dir.permissions == old(dir.permissions)
  {
    view := GetOrCreatePermission(dir, ViewCodename, ViewName);
    optimize := GetOrCreatePermission(dir, OptimizeCodename, OptimizeName);
  }

  /** The grants of `PricingGrants`, by permission id. */
  method GrantPricing(dir: Directory, admin: int, buyer: int, analyst: int, supplier: int, view: int, optimize: int)
    requires admin != buyer && admin != analyst && admin != supplier
    requires buyer != analyst && buyer != supplier && analyst != supplier
    modifies dir`grants
    ensures dir.GrantsOf(admin) == old(dir.GrantsOf(admin)) + {view, optimize}
    ensures dir.GrantsOf(analyst) == old(dir.GrantsOf(analyst)) + {view, optimize}
    ensures dir.GrantsOf(buyer) == old(dir.GrantsOf(buyer)) + {view}
    ensures dir.GrantsOf(supplier) == old(dir.GrantsOf(supplier))
    ensures old({view, optimize} <= dir.GrantsOf(admin) && {view, optimize} <= dir.GrantsOf(analyst) &&
                view in dir.GrantsOf(buyer)) ==>
      dir.grants == old(dir.grants)
  {
    GrantBoth(dir, admin, view, optimize);
    GrantBoth(dir, analyst, view, optimize);
    dir.Grant(buyer, view);
  }

  /** Both pricing permissions to one group; the other groups keep theirs. */
  method GrantBoth(dir: Directory, group: int, view: int, optimize: int)
    modifies dir`grants
    ensures dir.GrantsOf(group) == old(dir.GrantsOf(group)) + {view, optimize}
    ensures forall g :: g != group ==> dir.GrantsOf(g) == old(dir.GrantsOf(g))
    ensures old({view, optimize} <= dir.GrantsOf(group)) ==> dir.grants == old(dir.grants)
  {
    dir.Grant(group, view);
    dir.Grant(group, optimize);
  }

  /**
   * The groups, roles and permissions of the command, with the grants between them:
   * admin and analyst get both pricing permissions, buyer gets view, supplier none.
   */
  method SeedGroups(dir: Directory)
    returns (admin: Group, buyer: Group, analyst: Group, supplier: Group, view: Permission, optimize: Permission)
    requires GroupIdsUnique(dir.groups)
    modifies dir`groups, dir`roles, dir`permissions, dir`grants
    ensures GroupIdsUnique(dir.groups)
    ensures NamedGroup(dir, "admin") == Some(admin) && NamedGroup(dir, "buyer") == Some(buyer)
    ensures NamedGroup(dir, "analyst") == Some(analyst) && NamedGroup(dir, "supplier") == Some(supplier)
    ensures NamedPermission(dir, ViewCodename, ViewName) == Some(view)
    ensures NamedPermission(dir, OptimizeCodename, OptimizeName) == Some(optimize)
    ensures HasRoleRow(dir, admin) && HasRoleRow(dir, buyer) && HasRoleRow(dir, analyst) && HasRoleRow(dir, supplier)
    ensures dir.GrantsOf(admin.id) == old(dir.GrantsOf(admin.id)) + {view.id, optimize.id}
    ensures dir.GrantsOf(analyst.id) == old(dir.GrantsOf(analyst.id)) + {view.id, optimize.id}
    ensures dir.GrantsOf(buyer.id) == old(dir.GrantsOf(buyer.id)) + {view.id}
    ensures dir.GrantsOf(supplier.id) == old(dir.GrantsOf(supplier.id))
    ensures GroupsSeeded(dir.groups, dir.roles, dir.permissions, dir.grants)
    ensures old(GroupsSeeded(dir.groups, dir.roles, dir.permissions, dir.grants)) ==>
      dir.groups == old(dir.groups) && dir.roles == old(dir.roles) &&
      dir.permissions == old(dir.permissions) && dir.grants == old(dir.grants)
  {
    ghost var seededBefore := GroupsSeeded(dir.groups, dir.roles, dir.permissions, dir.grants);
    admin, buyer, analyst, supplier := SeedGroupTable(dir);
    view, optimize := SeedPermissions(dir);
    if seededBefore {
      GroupsSeededElim(dir.groups, dir.roles, dir.permissions, dir.grants,
                       admin, buyer, analyst, supplier, view, optimize);
    }
    SeedRoles(dir, admin, buyer, analyst, supplier);
    GrantPricing(dir, admin.id, buyer.id, analyst.id, supplier.id, view.id, optimize.id);
    GroupsSeededIntro(dir.groups, dir.roles, dir.permissions, dir.grants, admin, buyer, analyst, supplier, view, optimize);
  }

  // ---------------------------------------------------------------------------
  // Test users
  // ---------------------------------------------------------------------------

  datatype SeedAccount = SeedAccount(username: string, password: string, email: string, userType: string)

  /** The four test accounts, in the order the command walks them. */
  const SeedAccounts: seq<SeedAccount> := [
    SeedAccount("admin_user", "Admin123!", "admin@example.com", "admin"),
    SeedAccount("buyer_user", "Buyer123!", "buyer@example.com", "buyer"),
    SeedAccount("analyst_user", "Analyst123!", "analyst@example.com", "analyst"),
    SeedAccount("supplier_user", "Supplier123!", "supplier@example.com", "supplier")
  ]

  /** The password a test user created by the command is given, by username. */
  function SeedPassword(username: string): Option<string>
  {
    if username == "admin_user" then Some("Admin123!")
    else if username == "buyer_user" then Some("Buyer123!")
    else if username == "analyst_user" then Some("Analyst123!")
    else if username == "supplier_user" then Some("Supplier123!")
    else None
  }

  /** Rows at and after `from` carry the password of the test account they are named after. */
  predicate SeedPasswordsFrom(users: seq<User>, from: nat)
  {
    forall j :: from <= j < |users| ==> users[j].password == SeedPassword(users[j].username)
  }

  /** The first `n` rows of `users` have the passwords they had in `before`. */
  predicate KeepsPasswords(before: seq<User>, users: seq<User>)
  {
    |before| <= |users| && forall j :: 0 <= j < |before| ==> users[j].password == before[j].password
  }

  /** The position of the first user with this username; None stands for `User.DoesNotExist`. */
  function UserIndex(users: seq<User>, username: string): (r: Option<nat>)
    ensures r.None? <==> forall j :: 0 <= j < |users| ==> users[j].username != username
    ensures r.Some? ==> r.value < |users| && users[r.value].username == username
  {
    if users == [] then None
    else if users[0].username == username then Some(0)
    else match UserIndex(users[1..], username)
      case None => None
      case Some(j) => Some(j + 1)
  }

  /** The profile defaults of a test account. */
  function SeedProfile(a: SeedAccount): Profile
  {
    Profile(a.userType, "Test Company", "555-123-4567")
  }

  /**
   * A user created from the `get_or_create` defaults, with `set_password` applied:
   * the first name is the capitalised part of the username before `_`.
   */
  function NewSeedUser(id: int, a: SeedAccount): (u: User)
    ensures u.id == id && u.username == a.username && u.password == Some(a.password)
    ensures u.profile.None? && u.isActive
  {
    User(id, a.username, a.email, Text.Capitalize(Text.BeforeFirst(a.username, '_')), "User", true, Some(a.password), None)
  }

  /** `UserProfile.objects.get_or_create(user=user, defaults=...)`: an existing profile is kept. */
  function WithProfile(u: User, a: SeedAccount): (r: User)
    ensures r.profile.Some?
    ensures u.profile.Some? ==> r == u
    ensures u.profile.None? ==> r.profile == Some(SeedProfile(a))
    ensures r.(profile := u.profile) == u
    ensures r.id == u.id && r.username == u.username && r.password == u.password
  {
    if u.profile.Some? then u else u.(profile := Some(SeedProfile(a)))
  }

  /** The group the `if`/`elif` chain adds a user of this type to. */
  function GroupFor(userType: string, admin: Group, buyer: Group, analyst: Group, supplier: Group): (g: Option<Group>)
    ensures g.Some? <==> userType in {"admin", "buyer", "analyst", "supplier"}
    ensures userType == "admin" ==> g == Some(admin)
    ensures userType == "buyer" ==> g == Some(buyer)
    ensures userType == "analyst" ==> g == Some(analyst)
    ensures userType == "supplier" ==> g == Some(supplier)
  {
    if userType == "admin" then Some(admin)
    else if userType == "buyer" then Some(buyer)
    else if userType == "analyst" then Some(analyst)
    else if userType == "supplier" then Some(supplier)
    else None
  }

  /** User `userId` is in group `groupId`. */
  predicate MemberOf(memberships: map<int, set<int>>, userId: int, groupId: int)
  {
    userId in memberships && groupId in memberships[userId]
  }

  /** Every user-to-group link of `before` is in `after`. */
  ghost predicate MembershipsGrow(before: map<int, set<int>>, after: map<int, set<int>>)
  {
    forall u, g :: MemberOf(before, u, g) ==> MemberOf(after, u, g)
  }

  /**
   * The row half of one pass of the user loop: `get_or_create` by username (the
   * password is set only on a user created here), then the profile only when missing.
   */
  method SeedUser(dir: Directory, a: SeedAccount) returns (user: User)
    modifies dir`users
    ensures user.username == a.username && user.profile.Some?
    ensures old(UserIndex(dir.users, a.username)).Some? ==>
      var j := old(UserIndex(dir.users, a.username)).value;
      user == WithProfile(old(dir.users[j]), a) && dir.users == old(dir.users)[j := user]
    ensures old(UserIndex(dir.users, a.username)).None? ==>
      && user == WithProfile(NewSeedUser(user.id, a), a)
      && (forall u :: u in old(dir.users) ==> u.id < user.id)
      && dir.users == old(dir.users) + [user]
    ensures KeepsPasswords(old(dir.users), dir.users)
  {
    var found := UserIndex(dir.users, a.username);
    if found.Some? {
      user := WithProfile(dir.users[found.value], a);
      dir.users := dir.users[found.value := user];
    } else {
      user := WithProfile(NewSeedUser(NextId(dir.users, (u: User) => u.id), a), a);
      dir.users := dir.users + [user];
    }
  }

  /** The group half of one pass: the group matching the account's type, when there is one. */
  method AddToTypeGroup(dir: Directory, user: User, userType: string,
                        admin: Group, buyer: Group, analyst: Group, supplier: Group)
    modifies dir`memberships
    ensures GroupFor(userType, admin, buyer, analyst, supplier).None? ==> dir.memberships == old(dir.memberships)
    ensures GroupFor(userType, admin, buyer, analyst, supplier).Some? ==>
      dir.memberships == old(dir.memberships)[user.id :=
        old(dir.GroupsOf(user.id)) + {GroupFor(userType, admin, buyer, analyst, supplier).value.id}]
    ensures MembershipsGrow(old(dir.memberships), dir.memberships)
    ensures GroupFor(userType, admin, buyer, analyst, supplier).Some? ==>
      MemberOf(dir.memberships, user.id, GroupFor(userType, admin, buyer, analyst, supplier).value.id)
    ensures GroupFor(userType, admin, buyer, analyst, supplier).Some? &&
            old(MemberOf(dir.memberships, user.id, GroupFor(userType, admin, buyer, analyst, supplier).value.id)) ==>
      dir.memberships == old(dir.memberships)
  {
    var group := GroupFor(userType, admin, buyer, analyst, supplier);
    if group.Some? {
      dir.AddToGroup(user.id, group.value.id);
    }
  }

  /** Test account `k` is the first with its username, so a user created for it gets its password. */
  lemma SeedAccountPassword(k: nat)
    requires k < |SeedAccounts|
    ensures SeedPassword(SeedAccounts[k].username) == Some(SeedAccounts[k].password)
  {
    assert "buyer_user"[0] != "admin_user"[0];
    assert "analyst_user"[1] != "admin_user"[1];
    assert |"supplier_user"| != |"admin_user"| && |"supplier_user"| != |"analyst_user"|;
  }

  /** One pass of the user loop keeps the rows it created carrying their accounts' passwords. */
  lemma SeedPasswordsKept(before: seq<User>, after: seq<User>, from: nat, found: Option<nat>, user: User, a: SeedAccount)
    requires SeedPasswordsFrom(before, from) && from <= |before|
    requires SeedPassword(a.username) == Some(a.password)
    requires found.Some? ==>
      found.value < |before| && after == before[found.value := user] &&
      user.password == before[found.value].password && user.username == before[found.value].username
    requires found.None? ==> after == before + [user] && user.username == a.username && user.password == Some(a.password)
    ensures SeedPasswordsFrom(after, from)
  {
  }

  /** Every test account has a user with a profile. */
  predicate UsersSeeded(users: seq<User>)
  {
    forall k :: 0 <= k < |SeedAccounts| ==>
      UserIndex(users, SeedAccounts[k].username).Some? &&
      users[UserIndex(users, SeedAccounts[k].username).value].profile.Some?
  }

  /** The groups of the four test accounts, in the order of `SeedAccounts`. */
  function SeedGroupList(admin: Group, buyer: Group, analyst: Group, supplier: Group): seq<Group>
  {
    [admin, buyer, analyst, supplier]
  }

  /** Test account `k` goes into the group of its own type. */
  lemma SeedAccountGroup(k: nat, admin: Group, buyer: Group, analyst: Group, supplier: Group)
    requires k < |SeedAccounts|
    ensures GroupFor(SeedAccounts[k].userType, admin, buyer, analyst, supplier)
      == Some(SeedGroupList(admin, buyer, analyst, supplier)[k])
  {
    assert "buyer"[0] != "admin"[0] && "analyst"[1] != "admin"[1];
    assert |"supplier"| != |"admin"| && |"supplier"| != |"buyer"| && |"supplier"| != |"analyst"|;
  }

  /** The `k`-th user of `seeded` is in the `k`-th group of `groups`. */
  predicate InTheirGroups(memberships: map<int, set<int>>, seeded: seq<User>, groups: seq<Group>)
  {
    forall k :: 0 <= k < |seeded| && k < |groups| ==> MemberOf(memberships, seeded[k].id, groups[k].id)
  }

  /** One more pass of the user loop keeps the earlier users in their groups and adds the new one. */
  lemma InTheirGroupsStep(before: map<int, set<int>>, after: map<int, set<int>>, seeded: seq<User>, groups: seq<Group>,
                          user: User)
    requires InTheirGroups(before, seeded, groups) && MembershipsGrow(before, after)
    requires |seeded| < |groups| && MemberOf(after, user.id, groups[|seeded|].id)
    ensures InTheirGroups(after, seeded + [user], groups)
  {
    forall k | 0 <= k < |seeded| + 1 && k < |groups|
      ensures MemberOf(after, (seeded + [user])[k].id, groups[k].id)
    {
      if k < |seeded| {
        assert (seeded + [user])[k] == seeded[k];
      }
    }
  }

  /** The `k`-th user of `seeded` is named after the `k`-th test account. */
  predicate NamedAfterAccounts(seeded: seq<User>)
  {
    forall k :: 0 <= k < |seeded| && k < |SeedAccounts| ==> seeded[k].username == SeedAccounts[k].username
  }

  lemma NamedAfterAccountsStep(seeded: seq<User>, user: User)
    requires NamedAfterAccounts(seeded) && |seeded| < |SeedAccounts|
    requires user.username == SeedAccounts[|seeded|].username
    ensures NamedAfterAccounts(seeded + [user])
  {
    forall k | 0 <= k < |seeded| + 1
      ensures (seeded + [user])[k].username == SeedAccounts[k].username
    {
      if k < |seeded| {
        assert (seeded + [user])[k] == seeded[k];
      }
    }
  }

  lemma MembershipsGrowTrans(a: map<int, set<int>>, b: map<int, set<int>>, c: map<int, set<int>>)
    requires MembershipsGrow(a, b) && MembershipsGrow(b, c)
    ensures MembershipsGrow(a, c)
  {
  }

  lemma KeepsPasswordsTrans(a: seq<User>, b: seq<User>, c: seq<User>)
    requires KeepsPasswords(a, b) && KeepsPasswords(b, c)
    ensures KeepsPasswords(a, c)
  {
  }

  /** With every test account present, the pass for account `k` finds a user that already has a profile. */
  lemma SeededUserFound(users: seq<User>, k: nat)
    requires UsersSeeded(users) && k < |SeedAccounts|
    ensures UserIndex(users, SeedAccounts[k].username).Some?
    ensures users[UserIndex(users, SeedAccounts[k].username).value].profile.Some?
  {
  }

  /** The four test accounts have different usernames. */
  lemma SeedUsernamesDistinct(i: nat, k: nat)
    requires i < k < |SeedAccounts|
    ensures SeedAccounts[i].username != SeedAccounts[k].username
  {
    assert "buyer_user"[0] != "admin_user"[0];
    assert |"analyst_user"| != |"admin_user"| && |"supplier_user"| != |"admin_user"|;
    assert |"supplier_user"| != |"analyst_user"|;
  }

  /** Appending a user moves no username already present, and a new username is found at the end. */
  lemma {:induction false} UserIndexAppend(users: seq<User>, u: User, name: string)
    ensures UserIndex(users + [u], name) ==
      if UserIndex(users, name).Some? then UserIndex(users, name)
      else if u.username == name then Some(|users|) else None
  {
    if users != [] {
      assert (users + [u])[1..] == users[1..] + [u];
      UserIndexAppend(users[1..], u, name);
    }
  }

  /** Rows rewritten without changing their usernames are found where they were. */
  lemma {:induction false} UserIndexSameNames(a: seq<User>, b: seq<User>, name: string)
    requires |a| == |b| && forall j :: 0 <= j < |a| ==> a[j].username == b[j].username
    ensures UserIndex(a, name) == UserIndex(b, name)
  {
    if a != [] {
      UserIndexSameNames(a[1..], b[1..], name);
    }
  }

  /** The user `get(username=...)` finds for test account `k` is `seeded[k]`. */
  predicate FoundAs(users: seq<User>, seeded: seq<User>)
  {
    forall k :: 0 <= k < |seeded| && k < |SeedAccounts| ==>
      UserIndex(users, SeedAccounts[k].username).Some? &&
      users[UserIndex(users, SeedAccounts[k].username).value] == seeded[k]
  }

  /** One pass of the user loop keeps the earlier accounts' rows and finds the new account's user. */
  lemma FoundAsStep(before: seq<User>, after: seq<User>, seeded: seq<User>, user: User)
    requires FoundAs(before, seeded) && |seeded| < |SeedAccounts|
    requires user.username == SeedAccounts[|seeded|].username
    requires UserIndex(before, user.username).Some? ==>
      after == before[UserIndex(before, user.username).value := user]
    requires UserIndex(before, user.username).None? ==> after == before + [user]
    ensures FoundAs(after, seeded + [user])
  {
    var found := UserIndex(before, user.username);
    forall name | true
      ensures UserIndex(after, name) == UserIndex(before, name) || (found.None? && name == user.username)
    {
      if found.Some? {
        UserIndexSameNames(before, after, name);
      } else {
        UserIndexAppend(before, user, name);
      }
    }
    if found.None? {
      UserIndexAppend(before, user, user.username);
    }
    forall k | 0 <= k < |seeded| + 1
      ensures UserIndex(after, SeedAccounts[k].username).Some?
      ensures after[UserIndex(after, SeedAccounts[k].username).value] == (seeded + [user])[k]
    {
      if k < |seeded| {
        SeedUsernamesDistinct(k, |seeded|);
        assert (seeded + [user])[k] == seeded[k];
      }
    }
  }

  /**
   * Every test account has a user with a profile, and that user is in the group of
   * the account's type (`groups` in the order of `SeedAccounts`).
   */
  predicate AccountsSeeded(users: seq<User>, memberships: map<int, set<int>>, groups: seq<Group>)
  {
    && UsersSeeded(users)
    && forall k :: 0 <= k < |SeedAccounts| && k < |groups| ==>
         UserIndex(users, SeedAccounts[k].username).Some? &&
         MemberOf(memberships, users[UserIndex(users, SeedAccounts[k].username).value].id, groups[k].id)
  }

  /** With every account seeded, the user found for account `k` is in the group of its type. */
  lemma SeededAccountMember(users: seq<User>, memberships: map<int, set<int>>, groups: seq<Group>, k: nat)
    requires AccountsSeeded(users, memberships, groups) && k < |SeedAccounts| && k < |groups|
    ensures UserIndex(users, SeedAccounts[k].username).Some?
    ensures MemberOf(memberships, users[UserIndex(users, SeedAccounts[k].username).value].id, groups[k].id)
  {
  }

  /** Users found for all four accounts, with profiles and in their groups, seed the accounts. */
  lemma AccountsSeededIntro(users: seq<User>, memberships: map<int, set<int>>, seeded: seq<User>, groups: seq<Group>)
    requires |seeded| == |SeedAccounts| && FoundAs(users, seeded)
    requires forall k :: 0 <= k < |seeded| ==> seeded[k].profile.Some?
    requires InTheirGroups(memberships, seeded, groups)
    ensures forall k :: 0 <= k < |seeded| ==> seeded[k] in users
    ensures AccountsSeeded(users, memberships, groups)
  {
    forall k | 0 <= k < |seeded|
      ensures seeded[k] in users
    {
      assert users[UserIndex(users, SeedAccounts[k].username).value] == seeded[k];
    }
  }

  /**
   * The user loop: each test account ends up with a user in the group of its type;
   * users that existed keep their passwords, and users created here carry their
   * account's password. The users it returns are the rows the table holds for the
   * accounts, each with a profile. With every account already present in its group,
   * neither the users nor the memberships change.
   */
  method SeedUsers(dir: Directory, admin: Group, buyer: Group, analyst: Group, supplier: Group)
    returns (seeded: seq<User>)
    modifies dir`users, dir`memberships
    ensures |seeded| == |SeedAccounts| && NamedAfterAccounts(seeded)
    ensures forall k :: 0 <= k < |seeded| ==> seeded[k] in dir.users && seeded[k].profile.Some?
    ensures FoundAs(dir.users, seeded)
    ensures InTheirGroups(dir.memberships, seeded, SeedGroupList(admin, buyer, analyst, supplier))
    ensures AccountsSeeded(dir.users, dir.memberships, SeedGroupList(admin, buyer, analyst, supplier))
    ensures KeepsPasswords(old(dir.users), dir.users)
    ensures SeedPasswordsFrom(dir.users, |old(dir.users)|)
    ensures MembershipsGrow(old(dir.memberships), dir.memberships)
    ensures old(UsersSeeded(dir.users)) ==> dir.users == old(dir.users)
    ensures old(AccountsSeeded(dir.users, dir.memberships, SeedGroupList(admin, buyer, analyst, supplier))) ==>
      dir.memberships == old(dir.memberships)
  {
    seeded := [];
    ghost var groups := SeedGroupList(admin, buyer, analyst, supplier);
    ghost var accountsBefore := AccountsSeeded(dir.users, dir.memberships, groups);
    var k := 0;
    while k < |SeedAccounts|
      invariant 0 <= k <= |SeedAccounts| && |seeded| == k
      invariant NamedAfterAccounts(seeded)
      invariant FoundAs(dir.users, seeded)
      invariant forall i :: 0 <= i < |seeded| ==> seeded[i].profile.Some?
      invariant InTheirGroups(dir.memberships, seeded, groups)
      invariant KeepsPasswords(old(dir.users), dir.users)
      invariant SeedPasswordsFrom(dir.users, |old(dir.users)|)
      invariant MembershipsGrow(old(dir.memberships), dir.memberships)
      invariant old(UsersSeeded(dir.users)) ==> dir.users == old(dir.users)
      invariant accountsBefore ==> dir.memberships == old(dir.memberships)
    {
      ghost var before, memberships := dir.users, dir.memberships;
      ghost var found := UserIndex(dir.users, SeedAccounts[k].username);
      ghost var seededBefore := old(UsersSeeded(dir.users));
      if seededBefore {
        SeededUserFound(before, k);
      }
      SeedAccountGroup(k, admin, buyer, analyst, supplier);
      var user := SeedUser(dir, SeedAccounts[k]);
      if seededBefore {
        assert dir.users == before && user == before[found.value] by {
          var j := found.value;
          assert user == before[j];
        }
      }
      if accountsBefore {
        SeededAccountMember(before, memberships, groups, k);
      }
      AddToTypeGroup(dir, user, SeedAccounts[k].userType, admin, buyer, analyst, supplier);
      SeedAccountPassword(k);
      SeedPasswordsKept(before, dir.users, |old(dir.users)|, found, user, SeedAccounts[k]);
      KeepsPasswordsTrans(old(dir.users), before, dir.users);
      MembershipsGrowTrans(old(dir.memberships), memberships, dir.memberships);
      InTheirGroupsStep(memberships, dir.memberships, seeded, groups, user);
      NamedAfterAccountsStep(seeded, user);
      FoundAsStep(before, dir.users, seeded, user);
      seeded := seeded + [user];
      k := k + 1;
    }
    AccountsSeededIntro(dir.users, dir.memberships, seeded, groups);
  }

  // ---------------------------------------------------------------------------
  // Products, their history and market conditions
  // ---------------------------------------------------------------------------

  /** The pricing tables the command fills. */
  class Catalog {
    var products: seq<Product>
    var history: seq<HistoryRow>
    var conditions: seq<MarketCondition>

    constructor()
      ensures products == [] && history == [] && conditions == []
    {
      products := [];
      history := [];
      conditions := [];
    }
  }

  const Categories: seq<string> := ["Electronics", "Clothing", "Food", "Furniture", "Books"]

  /**
   * The random draws for product `i`: `random.choice(categories)`, the quantized
   * `uniform` cost, margin and rating, and the `randint` stock and units sold.
   */
  datatype ProductDraw = ProductDraw(
    category: string,
    costPrice: real,
    margin: real,
    stock: int,
    unitsSold: int,
    rating: real)

  /** The ranges the draws come from. */
  predicate ProductDrawInRange(d: ProductDraw)
  {
    && d.category in Categories
    && 10.0 <= d.costPrice <= 500.0 && 0.1 <= d.margin <= 0.5
    && 0 <= d.stock <= 100 && 10 <= d.unitsSold <= 1000 && 1.0 <= d.rating <= 5.0
  }

  function ProductName(i: nat): string
  {
    "Test Product " + NatText(i)
  }

  /** Different product numbers give different names, so the twenty lookups never find each other's rows. */
  lemma ProductNamesDistinct(i: nat, j: nat)
    requires i != j
    ensures ProductName(i) != ProductName(j)
  {
    var prefix := "Test Product ";
    if ProductName(i) == ProductName(j) {
      assert ProductName(i)[|prefix|..] == NatText(i);
      assert ProductName(j)[|prefix|..] == NatText(j);
      DigitsValueOfNatText(i);
      DigitsValueOfNatText(j);
    }
  }

  /** `cost_price * (1 + margin)`. */
  function SeedSellingPrice(costPrice: real, margin: real): real
  {
    costPrice * (1.0 + margin)
  }

  /** A product created from the `get_or_create` defaults. */
  function NewSeedProduct(id: int, i: nat, d: ProductDraw): (p: Product)
    ensures p.productId == id && p.name == ProductName(i)
    ensures p.costPrice == d.costPrice && p.sellingPrice == SeedSellingPrice(d.costPrice, d.margin)
  {
    Product(id, ProductName(i), "Description for test product " + NatText(i), d.costPrice,
            SeedSellingPrice(d.costPrice, d.margin), d.category, d.stock, d.unitsSold, Some(d.rating))
  }

  /** A seeded product sells at 10% to 50% above its cost, never below it. */
  lemma SeededPriceCoversCost(d: ProductDraw)
    requires ProductDrawInRange(d)
    ensures 1.1 * d.costPrice <= SeedSellingPrice(d.costPrice, d.margin) <= 1.5 * d.costPrice
    ensures d.costPrice < SeedSellingPrice(d.costPrice, d.margin)
  {
    Services.NonNegativeProduct(d.costPrice, d.margin - 0.1);
    Services.NonNegativeProduct(d.costPrice, 0.5 - d.margin);
  }

  function ProductNameKey(p: Product): string { p.name }

  /** `Product.objects.get_or_create(name=f"Test Product {i}", defaults=...)`. */
  method SeedProduct(catalog: Catalog, i: nat, d: ProductDraw) returns (p: Product)
    modifies catalog`products
    ensures p.name == ProductName(i)
    ensures FirstWithKey(catalog.products, ProductNameKey, ProductName(i)) == Some(p)
    ensures forall n :: old(FirstWithKey(catalog.products, ProductNameKey, n)).Some? ==>
      FirstWithKey(catalog.products, ProductNameKey, n) == old(FirstWithKey(catalog.products, ProductNameKey, n))
    ensures old(FirstWithKey(catalog.products, ProductNameKey, ProductName(i))).Some? ==>
      catalog.products == old(catalog.products)
    ensures old(FirstWithKey(catalog.products, ProductNameKey, ProductName(i))).None? ==>
      && p == NewSeedProduct(p.productId, i, d)
      && (forall q :: q in old(catalog.products) ==> q.productId < p.productId)
      && catalog.products == old(catalog.products) + [p]
  {
    var found := FirstWithKey(catalog.products, ProductNameKey, ProductName(i));
    if found.Some? {
      return found.value;
    }
    p := NewSeedProduct(NextId(catalog.products, (q: Product) => q.productId), i, d);
    forall n | FirstWithKey(catalog.products, ProductNameKey, n).Some?
      ensures FirstWithKey(catalog.products + [p], ProductNameKey, n) == FirstWithKey(catalog.products, ProductNameKey, n)
    {
      FirstWithKeyAppend(catalog.products, p, ProductNameKey, n);
    }
    FirstWithKeyAppend(catalog.products, p, ProductNameKey, ProductName(i));
    catalog.products := catalog.products + [p];
  }

  const ProductCount := 20

  /** All twenty test products are in the table. */
  predicate ProductsSeeded(products: seq<Product>)
  {
    forall i :: 1 <= i <= ProductCount ==> FirstWithKey(products, ProductNameKey, ProductName(i)).Some?
  }

  /** Every row from position `from` on is a test product built from its own draw. */
  predicate NewRowsFromDraws(products: seq<Product>, from: nat, draws: nat -> ProductDraw)
  {
    forall j :: from <= j < |products| ==>
      exists i: nat :: 1 <= i <= ProductCount && products[j] == NewSeedProduct(products[j].productId, i, draws(i))
  }

  /**
   * The product loop: the returned list holds test product `k + 1` at position `k`,
   * as the name lookup finds it; the rows the loop adds are test products built from
   * their draws. With all twenty present, the table is unchanged.
   */
  method SeedProducts(catalog: Catalog, draws: nat -> ProductDraw) returns (products: seq<Product>)
    modifies catalog`products
    ensures |products| == ProductCount
    ensures forall k :: 0 <= k < |products| ==>
      products[k].name == ProductName(k + 1) &&
      FirstWithKey(catalog.products, ProductNameKey, ProductName(k + 1)) == Some(products[k])
    ensures old(catalog.products) <= catalog.products
    ensures NewRowsFromDraws(catalog.products, |old(catalog.products)|, draws)
    ensures old(ProductsSeeded(catalog.products)) ==> catalog.products == old(catalog.products)
  {
    products := [];
    var i := 1;
    while i <= ProductCount
      invariant 1 <= i <= ProductCount + 1 && |products| == i - 1
      invariant forall k :: 0 <= k < |products| ==>
        products[k].name == ProductName(k + 1) &&
        FirstWithKey(catalog.products, ProductNameKey, ProductName(k + 1)) == Some(products[k])
      invariant old(catalog.products) <= catalog.products
      invariant NewRowsFromDraws(catalog.products, |old(catalog.products)|, draws)
      invariant old(ProductsSeeded(catalog.products)) ==> catalog.products == old(catalog.products)
    {
      var p := SeedProduct(catalog, i, draws(i));
      products := products + [p];
      i := i + 1;
    }
  }

  /** With draws in range, every product the loop adds sells above its cost. */
  lemma NewProductsCoverCost(products: seq<Product>, from: nat, draws: nat -> ProductDraw)
    requires NewRowsFromDraws(products, from, draws)
    requires forall i: nat :: 1 <= i <= ProductCount ==> ProductDrawInRange(draws(i))
    ensures forall j :: from <= j < |products| ==> products[j].costPrice < products[j].sellingPrice
  {
    forall j | from <= j < |products|
      ensures products[j].costPrice < products[j].sellingPrice
    {
      var i: nat :| 1 <= i <= ProductCount && products[j] == NewSeedProduct(products[j].productId, i, draws(i));
      SeededPriceCoversCost(draws(i));
    }
  }

  // ----- history -----

  /** The seasonal multiplier of the history loop, by calendar month. */
  function SeasonBump(month: int): (f: real)
    ensures 1.0 <= f <= 1.5
    ensures f > 1.0 <==> month in {6, 7, 11, 12}
  {
    if month == 6 || month == 7 then 1.3
    else if month == 11 || month == 12 then 1.5
    else 1.0
  }

  /** `1 + (i / 100)`, with Python 3's true division. */
  function TrendFactor(i: nat): (t: real)
    ensures t >= 1.0
  {
    1.0 + i as real / 100.0
  }

  /** `int(base_units * variation * season_factor / trend_factor)`. */
  function SeedUnits(baseUnits: int, variation: real, season: real, i: nat): int
  {
    Services.Trunc(baseUnits as real * variation * season / TrendFactor(i))
  }

  /** Seeded monthly units are never negative and never above 1.8 times the product's base units. */
  lemma SeedUnitsBounds(baseUnits: int, variation: real, month: int, i: nat)
    requires 50 <= baseUnits <= 200 && 0.8 <= variation <= 1.2
    ensures 0 <= SeedUnits(baseUnits, variation, SeasonBump(month), i)
    ensures SeedUnits(baseUnits, variation, SeasonBump(month), i) as real <= 1.8 * baseUnits as real
  {
    var b := baseUnits as real;
    var s := SeasonBump(month);
    var t := TrendFactor(i);
    Services.NonNegativeProduct(b, variation);
    Services.NonNegativeProduct(b * variation, s);
    Services.NonNegativeProduct(b, 1.2 - variation);
    Services.NonNegativeProduct(b * variation, 1.5 - s);
    Services.NonNegativeProduct(b, 1.5 * (1.2 - variation));
    var x := b * variation * s;
    assert 0.0 <= x <= 1.8 * b;
    Services.DivideBounds(x, t, 0.0, 1.8 * b);
  }

  /** `today.replace(day=1) - timedelta(days=30*i)`, as the history loop computes it. */
  function MonthDate(today: Day, i: int): Day
  {
    FirstOfMonth(today) - 30 * i
  }

  /**
   * Stepping back 30 days at a time from the first of the month drifts off the
   * month boundaries: seeded on 2024-03-15, the loop dates months 1 and 2 back
   * 2024-01-31 and 2024-01-01, so January gets two rows and February none.
   */
  lemma MonthDateRepeatsJanuary()
    ensures CivilFromDays(19797) == Date(2024, 3, 15)
    ensures CivilFromDays(MonthDate(19797, 1)) == Date(2024, 1, 31)
    ensures CivilFromDays(MonthDate(19797, 2)) == Date(2024, 1, 1)
  {
    SeedDayIsMarch15();
    assert FirstOfMonth(19797) == 19783;
    assert MonthDate(19797, 1) == 19753 && MonthDate(19797, 2) == 19723;
    Day19753IsJanuary31();
    Day19723IsJanuary1();
  }

  lemma SeedDayIsMarch15()
    ensures CivilFromDays(19797) == Date(2024, 3, 15)
  {
    assert 739265 / 146097 == 5;
    assert CivilFromDays(19797) == CivilInEra(5, 8780);
    assert 8780 / 1460 == 6 && 8780 / 36524 == 0 && 8780 / 146096 == 0;
    assert YearOfEra(8780) == 8774 / 365 == 24;
    assert DayOfYear(8780, 24) == 14 && MarchMonth(14) == 0;
  }

  lemma Day19753IsJanuary31()
    ensures CivilFromDays(19753) == Date(2024, 1, 31)
  {
    assert 739221 / 146097 == 5;
    assert CivilFromDays(19753) == CivilInEra(5, 8736);
    assert 8736 / 1460 == 5 && 8736 / 36524 == 0 && 8736 / 146096 == 0;
    assert YearOfEra(8736) == 8731 / 365 == 23;
    assert DayOfYear(8736, 23) == 336 && MarchMonth(336) == 10;
  }

  lemma Day19723IsJanuary1()
    ensures CivilFromDays(19723) == Date(2024, 1, 1)
  {
    assert 739191 / 146097 == 5;
    assert CivilFromDays(19723) == CivilInEra(5, 8706);
    assert 8706 / 1460 == 5 && 8706 / 36524 == 0 && 8706 / 146096 == 0;
    assert YearOfEra(8706) == 8701 / 365 == 23;
    assert DayOfYear(8706, 23) == 306 && MarchMonth(306) == 10;
  }

  /** The calendar month `i` months before the month of `today`. */
  function MonthsBefore(today: Day, i: int): (m: YearMonth)
    ensures 1 <= m.month <= 12
    ensures MonthIndex(m) == MonthIndex(YearMonthOf(today)) - i
  {
    var q := MonthIndex(YearMonthOf(today)) - i;
    YearMonth(q / 12, q % 12 + 1)
  }

  /**
   * The history date the loop evidently means for month `i`: the first day of the
   * `i`-th calendar month before today's, so the twelve rows cover the twelve
   * preceding months, one each.
   */
  function HistoryMonth(today: Day, i: int): (d: Day)
    ensures CivilFromDays(d).day == 1
    ensures MonthIndex(YearMonthOf(d)) == MonthIndex(YearMonthOf(today)) - i
  {
    var m := MonthsBefore(today, i);
    FirstRoundTrip(m.year, m.month);
    DaysFromCivil(m.year, m.month, 1)
  }

  /** Two different month offsets date their rows in two different calendar months. */
  lemma HistoryMonthsDistinct(today: Day, i: int, j: int)
    requires i != j
    ensures YearMonthOf(HistoryMonth(today, i)) != YearMonthOf(HistoryMonth(today, j))
    ensures HistoryMonth(today, i) != HistoryMonth(today, j)
  {
  }

  /** The random draws for one product's history: base units, and per month the variation and the two price wobbles. */
  datatype HistoryDraw = HistoryDraw(
    baseUnits: int,
    variation: int -> real,
    costWobble: int -> real,
    priceWobble: int -> real)

  /** The history row the loop builds for product `p` and month offset `i`. */
  function NewHistoryRow(p: Product, today: Day, i: nat, d: HistoryDraw): (r: HistoryRow)
    ensures r.productId == p.productId && r.month == HistoryMonth(today, i)
  {
    var month := HistoryMonth(today, i);
    HistoryRow(p.productId, month, SeedUnits(d.baseUnits, d.variation(i), SeasonBump(MonthOf(month)), i),
               p.sellingPrice * d.priceWobble(i), p.costPrice * d.costWobble(i))
  }

  /** `ProductHistory.objects.get(product=..., month=...)`. */
  function FindHistory(history: seq<HistoryRow>, productId: int, month: Day): (r: Option<HistoryRow>)
    ensures r.None? <==> forall h :: h in history ==> !(h.productId == productId && h.month == month)
    ensures r.Some? ==> r.value in history && r.value.productId == productId && r.value.month == month
  {
    if history == [] then None
    else if history[0].productId == productId && history[0].month == month then Some(history[0])
    else FindHistory(history[1..], productId, month)
  }

  /** The history of product `productId` has a row for month `month`. */
  predicate HasHistory(history: seq<HistoryRow>, productId: int, month: Day)
  {
    FindHistory(history, productId, month).Some?
  }

  /** Months `1` to `upTo - 1` back of product `productId` are in place. */
  predicate MonthsSeeded(history: seq<HistoryRow>, productId: int, today: Day, upTo: int)
  {
    forall i :: 1 <= i < upTo ==> HasHistory(history, productId, HistoryMonth(today, i))
  }

  /** All twelve months of product `productId` are in place. */
  predicate YearSeeded(history: seq<HistoryRow>, productId: int, today: Day)
  {
    MonthsSeeded(history, productId, today, 13)
  }

  /** Every row from position `from` on is one of product `p`'s twelve rows, built from its draws. */
  predicate NewHistoryRows(history: seq<HistoryRow>, from: nat, p: Product, today: Day, d: HistoryDraw)
  {
    forall j :: from <= j < |history| ==>
      exists i: nat :: 1 <= i <= 12 && history[j] == NewHistoryRow(p, today, i, d)
  }

  /** A row found in a table is still found once rows are appended. */
  lemma HasHistoryGrows(history: seq<HistoryRow>, more: seq<HistoryRow>, productId: int, month: Day)
    requires HasHistory(history, productId, month)
    ensures HasHistory(history + more, productId, month)
  {
    assert FindHistory(history, productId, month).value in history + more;
  }

  /** Appending the row of month `i` extends the months in place by that month. */
  lemma MonthsSeededStep(history: seq<HistoryRow>, p: Product, today: Day, i: nat, d: HistoryDraw)
    requires MonthsSeeded(history, p.productId, today, i)
    ensures MonthsSeeded(history + [NewHistoryRow(p, today, i, d)], p.productId, today, i + 1)
  {
    var row := NewHistoryRow(p, today, i, d);
    forall k | 1 <= k < i + 1
      ensures HasHistory(history + [row], p.productId, HistoryMonth(today, k))
    {
      if k < i {
        HasHistoryGrows(history, [row], p.productId, HistoryMonth(today, k));
      } else {
        assert row in history + [row];
      }
    }
  }

  /** Appending one of `p`'s rows keeps every added row one of `p`'s rows. */
  lemma NewHistoryRowsStep(history: seq<HistoryRow>, from: nat, p: Product, today: Day, i: nat, d: HistoryDraw)
    requires NewHistoryRows(history, from, p, today, d) && 1 <= i <= 12 && from <= |history|
    ensures NewHistoryRows(history + [NewHistoryRow(p, today, i, d)], from, p, today, d)
  {
    var more := history + [NewHistoryRow(p, today, i, d)];
    forall j | from <= j < |more|
      ensures exists k: nat :: 1 <= k <= 12 && more[j] == NewHistoryRow(p, today, k, d)
    {
      if j < |history| {
        assert more[j] == history[j];
      } else {
        assert more[j] == NewHistoryRow(p, today, i, d);
      }
    }
  }

  /**
   * The inner loop: `get_or_create` of the twelve monthly rows of one product. The
   * rows it adds are that product's; with all twelve present it adds none.
   */
  method SeedYear(catalog: Catalog, p: Product, today: Day, d: HistoryDraw)
    modifies catalog`history
    ensures YearSeeded(catalog.history, p.productId, today)
    ensures old(catalog.history) <= catalog.history
    ensures NewHistoryRows(catalog.history, |old(catalog.history)|, p, today, d)
    ensures old(YearSeeded(catalog.history, p.productId, today)) ==> catalog.history == old(catalog.history)
  {
    var i := 1;
    while i <= 12
      invariant 1 <= i <= 13
      invariant MonthsSeeded(catalog.history, p.productId, today, i)
      invariant old(catalog.history) <= catalog.history
      invariant NewHistoryRows(catalog.history, |old(catalog.history)|, p, today, d)
      invariant old(YearSeeded(catalog.history, p.productId, today)) ==> catalog.history == old(catalog.history)
    {
      if FindHistory(catalog.history, p.productId, HistoryMonth(today, i)).None? {
        MonthsSeededStep(catalog.history, p, today, i, d);
        NewHistoryRowsStep(catalog.history, |old(catalog.history)|, p, today, i, d);
        catalog.history := catalog.history + [NewHistoryRow(p, today, i, d)];
      } else {
        assert MonthsSeeded(catalog.history, p.productId, today, i + 1);
      }
      i := i + 1;
    }
  }

  /** A table in which every month of a product is in place keeps them all when rows are appended. */
  lemma YearSeededGrows(history: seq<HistoryRow>, more: seq<HistoryRow>, productId: int, today: Day)
    requires YearSeeded(history, productId, today)
    ensures YearSeeded(history + more, productId, today)
  {
    forall i | 1 <= i < 13
      ensures HasHistory(history + more, productId, HistoryMonth(today, i))
    {
      HasHistoryGrows(history, more, productId, HistoryMonth(today, i));
    }
  }

  /** Every product of `products` has its twelve months in place. */
  predicate HistorySeeded(history: seq<HistoryRow>, products: seq<Product>, today: Day)
  {
    forall k :: 0 <= k < |products| ==> YearSeeded(history, products[k].productId, today)
  }

  /**
   * Every row from position `from` on is a monthly row of some product of
   * `products`, built from that product's draws.
   */
  predicate AddedHistoryRows(history: seq<HistoryRow>, from: nat, products: seq<Product>, today: Day,
                             draws: nat -> HistoryDraw)
  {
    forall j :: from <= j < |history| ==> IsProductMonthRow(history[j], products, today, draws)
  }

  /** `row` is the row of some month of some product of `products`, built from that product's draws. */
  predicate IsProductMonthRow(row: HistoryRow, products: seq<Product>, today: Day, draws: nat -> HistoryDraw)
  {
    exists k, i :: 0 <= k < |products| && 1 <= i <= 12 && row == NewHistoryRow(products[k], today, i, draws(k))
  }

  /** The rows one run of the inner loop adds for product `k` are rows of a product of `products`. */
  lemma AddedHistoryRowsStep(history: seq<HistoryRow>, more: seq<HistoryRow>, from: nat, products: seq<Product>,
                             k: nat, today: Day, draws: nat -> HistoryDraw)
    requires k < |products| && from <= |history| && history <= more
    requires AddedHistoryRows(history, from, products, today, draws)
    requires NewHistoryRows(more, |history|, products[k], today, draws(k))
    ensures AddedHistoryRows(more, from, products, today, draws)
  {
    forall j | from <= j < |more|
      ensures IsProductMonthRow(more[j], products, today, draws)
    {
      if j < |history| {
        assert more[j] == history[j];
      } else {
        var i: nat :| 1 <= i <= 12 && more[j] == NewHistoryRow(products[k], today, i, draws(k));
        assert more[j] == NewHistoryRow(products[k], today, i, draws(k));
      }
    }
  }

  /** Once product `k` has its year, the first `k + 1` products have theirs, in the grown table. */
  lemma HistorySeededStep(before: seq<HistoryRow>, after: seq<HistoryRow>, products: seq<Product>, k: nat, today: Day)
    requires k < |products| && before <= after
    requires HistorySeeded(before, products[..k], today)
    requires YearSeeded(after, products[k].productId, today)
    ensures HistorySeeded(after, products[..k + 1], today)
  {
    assert after == before + after[|before|..];
    forall j | 0 <= j < k
      ensures YearSeeded(after, products[j].productId, today)
    {
      assert products[..k][j] == products[j];
      YearSeededGrows(before, after[|before|..], products[j].productId, today);
    }
    assert forall j :: 0 <= j < k + 1 ==> products[..k + 1][j] == products[j];
  }

  /**
   * The history loop over the seeded products: afterwards each of them has its
   * twelve months; every added row is a row of one of them, and a run over
   * products that already have their year adds nothing.
   */
  method SeedHistory(catalog: Catalog, products: seq<Product>, today: Day, draws: nat -> HistoryDraw)
    modifies catalog`history
    ensures HistorySeeded(catalog.history, products, today)
    ensures old(catalog.history) <= catalog.history
    ensures AddedHistoryRows(catalog.history, |old(catalog.history)|, products, today, draws)
    ensures old(HistorySeeded(catalog.history, products, today)) ==> catalog.history == old(catalog.history)
  {
    var k := 0;
    while k < |products|
      invariant 0 <= k <= |products|
      invariant HistorySeeded(catalog.history, products[..k], today)
      invariant old(catalog.history) <= catalog.history
      invariant AddedHistoryRows(catalog.history, |old(catalog.history)|, products, today, draws)
      invariant old(HistorySeeded(catalog.history, products, today)) ==> catalog.history == old(catalog.history)
    {
      ghost var before := catalog.history;
      ghost var seededBefore := old(HistorySeeded(catalog.history, products, today));
      if seededBefore {
        assert YearSeeded(before, products[k].productId, today);
      }
      SeedYear(catalog, products[k], today, draws(k));
      AddedHistoryRowsStep(before, catalog.history, |old(catalog.history)|, products, k, today, draws);
      HistorySeededStep(before, catalog.history, products, k, today);
      k := k + 1;
    }
    assert products[..k] == products;
  }

  // ---------------------------------------------------------------------------
  // Market conditions
  // ---------------------------------------------------------------------------

  /** One entry of the command's condition list; the dates are offsets in days from `today`. */
  datatype ConditionData = ConditionData(
    name: string,
    category: string,
    trend: string,
    impactFactor: real,
    startOffset: int,
    endOffset: int)

  const SeedConditionList: seq<ConditionData> := [
    ConditionData("Summer Season", "Clothing", "up", 1.2, -30, 60),
    ConditionData("Tech Shortage", "Electronics", "up", 1.15, -15, 45),
    ConditionData("Economic Downturn", "Furniture", "down", 1.1, -60, 30),
    ConditionData("Back to School", "Books", "up", 1.25, 15, 75)
  ]

  /** The condition `get_or_create` builds from entry `c` on day `today`. */
  function NewSeedCondition(c: ConditionData, today: Day): (m: MarketCondition)
    ensures m.name == c.name && m.category == c.category
    ensures m.startDate == today + c.startOffset && m.endDate == Some(today + c.endOffset)
  {
    MarketCondition(c.name, c.category, c.trend, c.impactFactor, today + c.startOffset, Some(today + c.endOffset))
  }

  /** The four conditions as created on day `today`, in list order. */
  function NewSeedConditions(today: Day): (r: seq<MarketCondition>)
    ensures |r| == |SeedConditionList|
    ensures forall k :: 0 <= k < |r| ==> r[k] == NewSeedCondition(SeedConditionList[k], today)
  {
    [NewSeedCondition(SeedConditionList[0], today), NewSeedCondition(SeedConditionList[1], today),
     NewSeedCondition(SeedConditionList[2], today), NewSeedCondition(SeedConditionList[3], today)]
  }

  /**
   * On the day they are seeded, the summer, shortage and downturn conditions are in
   * force for clothing, electronics and furniture, while "Back to School" starts 15
   * days later: books, like every other category, have no condition in force.
   */
  lemma SeededConditionsInForce(today: Day, category: string)
    ensures Services.ApplicableConditions(NewSeedConditions(today), category, today)
      == if category == "Clothing" then [NewSeedCondition(SeedConditionList[0], today)]
         else if category == "Electronics" then [NewSeedCondition(SeedConditionList[1], today)]
         else if category == "Furniture" then [NewSeedCondition(SeedConditionList[2], today)]
         else []
  {
    var cs := NewSeedConditions(today);
    assert "Clothing"[0] != "Electronics"[0] && "Clothing"[0] != "Furniture"[0];
    assert "Electronics"[0] != "Furniture"[0];
    assert cs[1..][1..] == cs[2..] && cs[2..][1..] == cs[3..] && cs[3..][1..] == [];
    ApplicableStep(cs[3..], category, today);
    var r3 := Services.ApplicableConditions(cs[3..], category, today);
    assert r3 == [];
    ApplicableStep(cs[2..], category, today);
    var r2 := Services.ApplicableConditions(cs[2..], category, today);
    assert r2 == if category == "Furniture" then [cs[2]] else [];
    ApplicableStep(cs[1..], category, today);
    var r1 := Services.ApplicableConditions(cs[1..], category, today);
    assert r1 == if category == "Electronics" then [cs[1]] else r2;
    ApplicableStep(cs, category, today);
  }

  /** One row of the filter: the first row's verdict, then the rest. */
  lemma ApplicableStep(cs: seq<MarketCondition>, category: string, today: Day)
    requires cs != []
    ensures Services.ApplicableConditions(cs, category, today)
      == (if Services.Applies(cs[0], category, today) then [cs[0]] else [])
       + Services.ApplicableConditions(cs[1..], category, today)
  {
  }

  function ConditionName(c: MarketCondition): string { c.name }

  /** `MarketCondition.objects.get_or_create(name=c.name, defaults=...)`. */
  method SeedCondition(catalog: Catalog, c: ConditionData, today: Day) returns (m: MarketCondition)
    modifies catalog`conditions
    ensures FirstWithKey(catalog.conditions, ConditionName, c.name) == Some(m)
    ensures forall n :: old(FirstWithKey(catalog.conditions, ConditionName, n)).Some? ==>
      FirstWithKey(catalog.conditions, ConditionName, n) == old(FirstWithKey(catalog.conditions, ConditionName, n))
    ensures old(FirstWithKey(catalog.conditions, ConditionName, c.name)).Some? ==>
      catalog.conditions == old(catalog.conditions)
    ensures old(FirstWithKey(catalog.conditions, ConditionName, c.name)).None? ==>
      m == NewSeedCondition(c, today) && catalog.conditions == old(catalog.conditions) + [m]
  {
    var found := FirstWithKey(catalog.conditions, ConditionName, c.name);
    if found.Some? {
      return found.value;
    }
    m := NewSeedCondition(c, today);
    forall n | FirstWithKey(catalog.conditions, ConditionName, n).Some?
      ensures FirstWithKey(catalog.conditions + [m], ConditionName, n) == FirstWithKey(catalog.conditions, ConditionName, n)
    {
      FirstWithKeyAppend(catalog.conditions, m, ConditionName, n);
    }
    FirstWithKeyAppend(catalog.conditions, m, ConditionName, c.name);
    catalog.conditions := catalog.conditions + [m];
  }

  /** Every condition of the list is in the table, by name. */
  predicate ConditionsSeeded(conditions: seq<MarketCondition>)
  {
    ConditionsSeededUpTo(conditions, |SeedConditionList|)
  }

  /** The first `upTo` conditions of the list are in the table, by name. */
  predicate ConditionsSeededUpTo(conditions: seq<MarketCondition>, upTo: nat)
  {
    forall k :: 0 <= k < upTo && k < |SeedConditionList| ==>
      FirstWithKey(conditions, ConditionName, SeedConditionList[k].name).Some?
  }

  /** Seeding condition `k` by name, and keeping every name already there, extends the prefix by one. */
  lemma ConditionsSeededStep(before: seq<MarketCondition>, after: seq<MarketCondition>, k: nat)
    requires k < |SeedConditionList|
    requires ConditionsSeededUpTo(before, k)
    requires forall n :: FirstWithKey(before, ConditionName, n).Some? ==>
      FirstWithKey(after, ConditionName, n) == FirstWithKey(before, ConditionName, n)
    requires FirstWithKey(after, ConditionName, SeedConditionList[k].name).Some?
    ensures ConditionsSeededUpTo(after, k + 1)
  {
  }

  /** A row built from an entry of the list keeps the added rows built from the list. */
  lemma NewConditionRowsStep(conditions: seq<MarketCondition>, from: nat, today: Day, k: nat)
    requires k < |SeedConditionList|
    requires NewConditionRows(conditions, from, today) && from <= |conditions|
    ensures NewConditionRows(conditions + [NewSeedCondition(SeedConditionList[k], today)], from, today)
  {
    var after := conditions + [NewSeedCondition(SeedConditionList[k], today)];
    forall j | from <= j < |after|
      ensures exists i :: 0 <= i < |SeedConditionList| && after[j] == NewSeedCondition(SeedConditionList[i], today)
    {
      if j == |conditions| {
        assert after[j] == NewSeedCondition(SeedConditionList[k], today);
      } else {
        assert after[j] == conditions[j];
      }
    }
  }

  /** Every row from position `from` on is built from an entry of the list on day `today`. */
  predicate NewConditionRows(conditions: seq<MarketCondition>, from: nat, today: Day)
  {
    forall j :: from <= j < |conditions| ==>
      exists k :: 0 <= k < |SeedConditionList| && conditions[j] == NewSeedCondition(SeedConditionList[k], today)
  }

  /**
   * The condition loop: afterwards each condition of the list is found by its
   * name; the rows added are built from the list on `today`, and a run over a table
   * that already has all four adds nothing.
   */
  method SeedConditions(catalog: Catalog, today: Day)
    modifies catalog`conditions
    ensures ConditionsSeeded(catalog.conditions)
    ensures old(catalog.conditions) <= catalog.conditions
    ensures NewConditionRows(catalog.conditions, |old(catalog.conditions)|, today)
    ensures old(ConditionsSeeded(catalog.conditions)) ==> catalog.conditions == old(catalog.conditions)
  {
    var k := 0;
    while k < |SeedConditionList|
      invariant 0 <= k <= |SeedConditionList|
      invariant ConditionsSeededUpTo(catalog.conditions, k)
      invariant old(catalog.conditions) <= catalog.conditions
      invariant NewConditionRows(catalog.conditions, |old(catalog.conditions)|, today)
      invariant old(ConditionsSeeded(catalog.conditions)) ==> catalog.conditions == old(catalog.conditions)
    {
      ghost var before := catalog.conditions;
      var m := SeedCondition(catalog, SeedConditionList[k], today);
      ConditionsSeededStep(before, catalog.conditions, k);
      if catalog.conditions != before {
        NewConditionRowsStep(before, |old(catalog.conditions)|, today, k);
      }
      k := k + 1;
    }
  }

  // ---------------------------------------------------------------------------
  // The command
  // ---------------------------------------------------------------------------

  /** The random draws of one run: per product number, and per position in the product list. */
  datatype Draws = Draws(products: nat -> ProductDraw, history: nat -> HistoryDraw)

  /**
   * Everything the account half of the command creates is in place: the groups,
   * roles, permissions and grants, and each test account's user with a profile in
   * the group of its type.
   */
  predicate DirectorySeeded(dir: Directory)
    reads dir
  {
    && GroupsSeeded(dir.groups, dir.roles, dir.permissions, dir.grants)
    && AccountsSeeded(dir.users, dir.memberships,
         SeedGroupList(NamedGroup(dir, "admin").value, NamedGroup(dir, "buyer").value,
                       NamedGroup(dir, "analyst").value, NamedGroup(dir, "supplier").value))
  }

  /**
   * The account half of `handle`: groups, roles, permissions, grants, then the users.
   * Afterwards the account tables are seeded; a run over seeded tables changes none.
   */
  method SeedDirectory(dir: Directory)
    requires GroupIdsUnique(dir.groups)
    modifies dir`groups, dir`roles, dir`permissions, dir`grants, dir`users, dir`memberships
    ensures GroupIdsUnique(dir.groups)
    ensures DirectorySeeded(dir)
    ensures KeepsPasswords(old(dir.users), dir.users) && SeedPasswordsFrom(dir.users, |old(dir.users)|)
    ensures MembershipsGrow(old(dir.memberships), dir.memberships)
    ensures old(DirectorySeeded(dir)) ==>
      && dir.groups == old(dir.groups) && dir.roles == old(dir.roles)
      && dir.permissions == old(dir.permissions) && dir.grants == old(dir.grants)
      && dir.users == old(dir.users) && dir.memberships == old(dir.memberships)
  {
    ghost var seededBefore := DirectorySeeded(dir);
    var admin, buyer, analyst, supplier, view, optimize := SeedGroups(dir);
    var users := SeedUsers(dir, admin, buyer, analyst, supplier);
  }

  /** The twenty test products as the lookup by name finds them, in the order of the product loop. */
  function FoundProducts(products: seq<Product>): (r: seq<Product>)
    requires ProductsSeeded(products)
    ensures |r| == ProductCount
    ensures forall k :: 0 <= k < |r| ==> r[k] in products && r[k].name == ProductName(k + 1)
  {
    seq(ProductCount, k requires 0 <= k < ProductCount =>
      FirstWithKey(products, ProductNameKey, ProductName(k + 1)).value)
  }

  /** Everything the catalog half of a run on `today` creates is in place. */
  predicate CatalogSeeded(catalog: Catalog, today: Day)
    reads catalog
  {
    && ProductsSeeded(catalog.products)
    && HistorySeeded(catalog.history, FoundProducts(catalog.products), today)
    && ConditionsSeeded(catalog.conditions)
  }

  /**
   * The catalog half of `handle`: products, a year of history for each, then the
   * market conditions. The returned products are the ones the table holds; a run
   * over a catalog seeded for the same day changes nothing.
   */
  method SeedCatalog(catalog: Catalog, today: Day, draws: Draws) returns (products: seq<Product>)
    modifies catalog`products, catalog`history, catalog`conditions
    ensures CatalogSeeded(catalog, today) && products == FoundProducts(catalog.products)
    ensures old(catalog.products) <= catalog.products && old(catalog.history) <= catalog.history
    ensures old(catalog.conditions) <= catalog.conditions
    ensures old(CatalogSeeded(catalog, today)) ==>
      && catalog.products == old(catalog.products) && catalog.history == old(catalog.history)
      && catalog.conditions == old(catalog.conditions)
  {
    ghost var seededBefore := CatalogSeeded(catalog, today);
    products := SeedProducts(catalog, draws.products);
    forall i | 1 <= i <= ProductCount
      ensures FirstWithKey(catalog.products, ProductNameKey, ProductName(i)).Some?
    {
      assert FirstWithKey(catalog.products, ProductNameKey, ProductName((i - 1) + 1)) == Some(products[i - 1]);
    }
    assert products == FoundProducts(catalog.products);
    SeedHistory(catalog, products, today, draws.history);
    SeedConditions(catalog, today);
  }

  /**
   * `Command.handle`: groups and permissions, users, products, their history and
   * the market conditions, in that order. Each part keeps what the earlier parts
   * put in place, since each writes its own tables. Every insert is a
   * `get_or_create`, so a run over tables already seeded changes none of them.
   */
  method Handle(dir: Directory, catalog: Catalog, today: Day, draws: Draws) returns (products: seq<Product>)
    requires GroupIdsUnique(dir.groups)
    modifies dir`groups, dir`roles, dir`permissions, dir`grants, dir`users, dir`memberships
    modifies catalog`products, catalog`history, catalog`conditions
    ensures GroupIdsUnique(dir.groups)
    ensures DirectorySeeded(dir) && CatalogSeeded(catalog, today)
    ensures products == FoundProducts(catalog.products)
    ensures KeepsPasswords(old(dir.users), dir.users) && SeedPasswordsFrom(dir.users, |old(dir.users)|)
    ensures old(DirectorySeeded(dir)) ==>
      && dir.groups == old(dir.groups) && dir.roles == old(dir.roles)
      && dir.permissions == old(dir.permissions) && dir.grants == old(dir.grants)
      && dir.users == old(dir.users) && dir.memberships == old(dir.memberships)
    ensures old(CatalogSeeded(catalog, today)) ==>
      && catalog.products == old(catalog.products) && catalog.history == old(catalog.history)
      && catalog.conditions == old(catalog.conditions)
  {
    SeedDirectory(dir);
    products := SeedCatalog(catalog, today, draws);
  }

  /**
   * Running the command a second time on the same day, whatever the random draws,
   * finds the products of the first run and changes no table.
   */
  method HandleTwice(dir: Directory, catalog: Catalog, today: Day, first: Draws, second: Draws)
    returns (firstProducts: seq<Product>, secondProducts: seq<Product>)
    requires GroupIdsUnique(dir.groups)
    modifies dir`groups, dir`roles, dir`permissions, dir`grants, dir`users, dir`memberships
    modifies catalog`products, catalog`history, catalog`conditions
    ensures secondProducts == firstProducts && |firstProducts| == ProductCount
    ensures forall k :: 0 <= k < |firstProducts| ==>
      firstProducts[k] in catalog.products && firstProducts[k].name == ProductName(k + 1)
  {
    firstProducts := Handle(dir, catalog, today, first);
    ghost var users, memberships, products := dir.users, dir.memberships, catalog.products;
    secondProducts := Handle(dir, catalog, today, second);
    assert dir.users == users && dir.memberships == memberships && catalog.products == products;
  }
}
