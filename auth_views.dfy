/**
 * The authentication views (`authentication/views.py`): login with the refresh
 * token in a cookie, refresh from that cookie, the admin-scoped querysets and role
 * assignment. `authenticate()`, token signing and token validation are Django and
 * SimpleJWT code outside this model and arrive as parameters.
 */
module AuthViews {
  import opened Wrappers
  import opened Json
  import opened Accounts

  // ----- login -----

  /** `Set-Cookie` attributes, with the names of section 4.1.2 of RFC 6265. */
  datatype Cookie = Cookie(
    name: string,
    value: string,
    maxAge: int,
    httpOnly: bool,
    secure: bool,
    sameSite: string,
    path: string)

  datatype LoginResponse =
    | InvalidCredentials400
    | NotVerified403
    | LoggedIn(accessClaims: map<string, string>, user: User, refreshCookie: Cookie)

  const RefreshCookieName := "refresh_token"
  const RefreshMaxAge := 7 * 24 * 3600

  /**
   * `CustomTokenObtainPairView.post`. `authenticated` is what `authenticate()`
   * returned for the posted username and password; `refreshToken` and
   * `baseClaims` are the text and the standard claims of the tokens SimpleJWT
   * issues for that user; `debug` is `settings.DEBUG`.
   */
  function Login(authenticated: Option<User>, refreshToken: string, baseClaims: map<string, string>, debug: bool)
    : (r: LoginResponse)
    ensures r == InvalidCredentials400 <==> authenticated.None?
    ensures r == NotVerified403 <==> authenticated.Some? && !authenticated.value.isActive
    ensures r.LoggedIn? ==>
      && authenticated == Some(r.user) && r.user.isActive
      && r.accessClaims == UserClaims(baseClaims, r.user)
      && r.refreshCookie.name == RefreshCookieName && r.refreshCookie.value == refreshToken
      && r.refreshCookie.maxAge == 604800 && r.refreshCookie.httpOnly
      && r.refreshCookie.secure == !debug && r.refreshCookie.sameSite == "Lax" && r.refreshCookie.path == "/auth/"
  {
    match authenticated
    case None => InvalidCredentials400
    case Some(user) =>
      if !user.isActive then NotVerified403
      else
        LoggedIn(UserClaims(baseClaims, user), user,
                 Cookie(RefreshCookieName, refreshToken, RefreshMaxAge, true, !debug, "Lax", "/auth/"))
  }

  /** The access token of a successful login names its user and role, "unknown" without a profile. */
  lemma LoginClaims(u: User, refreshToken: string, baseClaims: map<string, string>, debug: bool)
    requires u.isActive
    ensures var r := Login(Some(u), refreshToken, baseClaims, debug);
      && r.LoggedIn?
      && r.accessClaims["username"] == u.username
      && r.accessClaims["user_type"] == (if u.profile.Some? then u.profile.value.userType else "unknown")
  {
  }

  // ----- refresh -----

  datatype RefreshResponse = Unauthorized401 | Refreshed(access: string)

  /**
   * `CustomTokenRefreshView.post`. `validate` is SimpleJWT reading a refresh token:
   * the new access token, or None when it raises (expired, malformed, wrong type).
   */
  function Refresh(cookies: map<string, string>, validate: string -> Option<string>): (r: RefreshResponse)
    ensures r == Unauthorized401 <==>
      RefreshCookieName !in cookies || cookies[RefreshCookieName] == "" ||
      validate(cookies[RefreshCookieName]).None?
    ensures r.Refreshed? ==> Some(r.access) == validate(cookies[RefreshCookieName])
  {
    if RefreshCookieName !in cookies || cookies[RefreshCookieName] == "" then Unauthorized401
    else
      match validate(cookies[RefreshCookieName])
      case None => Unauthorized401
      case Some(access) => Refreshed(access)
  }

  /** The cookie a login sets is one refresh accepts whenever SimpleJWT accepts its token. */
  lemma LoginThenRefresh(u: User, refreshToken: string, baseClaims: map<string, string>, debug: bool,
                         validate: string -> Option<string>)
    requires u.isActive && refreshToken != "" && validate(refreshToken).Some?
    ensures var cookie := Login(Some(u), refreshToken, baseClaims, debug).refreshCookie;
      Refresh(map[cookie.name := cookie.value], validate) == Refreshed(validate(refreshToken).value)
  {
  }

  // ----- querysets -----

  /** `UserListView`/`UserDetailView.get_queryset`: all users for an admin, else only the requester. */
  function VisibleUsers(requester: User, users: seq<User>): (r: seq<User>)
    ensures IsAdminAccount(requester) ==> r == users
    ensures !IsAdminAccount(requester) ==> forall u :: u in r <==> u in users && u.id == requester.id
  {
    if IsAdminAccount(requester) then users
    else if users == [] then []
    else (if users[0].id == requester.id then [users[0]] else []) + VisibleUsers(requester, users[1..])
  }

  /** The role, group and permission querysets: the whole table for an admin, empty for anyone else. */
  function AdminOnly<T>(requester: User, rows: seq<T>): (r: seq<T>)
    ensures IsAdminAccount(requester) ==> r == rows
    ensures !IsAdminAccount(requester) ==> r == []
  {
    if IsAdminAccount(requester) then rows else []
  }

  // ----- Python's int() on text -----

  /** White space as Python's `str.isspace` sees it; `int()` strips it from both ends. */
  predicate IsPySpace(c: char)
  {
    var u := c as int;
    || 0x09 <= u <= 0x0D || 0x1C <= u <= 0x20 || u == 0x85 || u == 0xA0 || u == 0x1680
    || 0x2000 <= u <= 0x200A || u == 0x2028 || u == 0x2029 || u == 0x202F || u == 0x205F || u == 0x3000
  }

  function StripPySpace(s: string): (t: string)
    ensures |t| <= |s|
    ensures t != [] ==> !IsPySpace(t[0]) && !IsPySpace(t[|t| - 1])
  {
    if s != [] && IsPySpace(s[0]) then StripPySpace(s[1..])
    else if s != [] && IsPySpace(s[|s| - 1]) then StripPySpace(s[..|s| - 1])
    else s
  }

  /** Decimal digits, with single underscores allowed between two digits. */
  predicate IsDigitGroups(b: string)
  {
    && b != [] && IsDigit(b[0]) && IsDigit(b[|b| - 1])
    && (forall i :: 0 <= i < |b| ==> IsDigit(b[i]) || b[i] == '_')
    && (forall i :: 0 <= i < |b| - 1 ==> b[i] == '_' ==> IsDigit(b[i + 1]))
  }

  /** The digits of `b`, underscores dropped. */
  function DigitsOf(b: string): (ds: string)
    ensures forall i :: 0 <= i < |ds| ==> IsDigit(ds[i])
  {
    if b == [] then [] else (if IsDigit(b[0]) then [b[0]] else []) + DigitsOf(b[1..])
  }

  /**
   * Python's `int(s)` for text, in base 10: surrounding white space, an optional
   * sign, then digit groups. None is the ValueError it raises.
   */
  function PyInt(s: string): (r: Option<int>)
  {
    var t := StripPySpace(s);
    var body := if t != [] && (t[0] == '+' || t[0] == '-') then t[1..] else t;
    if !IsDigitGroups(body) then None
    else if t[0] == '-' then Some(-(DigitsValue(DigitsOf(body)) as int))
    else Some(DigitsValue(DigitsOf(body)))
  }

  lemma {:induction false} DigitsOfDigits(ds: string)
    requires forall i :: 0 <= i < |ds| ==> IsDigit(ds[i])
    ensures DigitsOf(ds) == ds
  {
    if ds != [] {
      DigitsOfDigits(ds[1..]);
      assert ds == [ds[0]] + ds[1..];
    }
  }

  /** Text with no space at either end is left as it is. */
  lemma StripNothing(t: string)
    requires t == [] || (!IsPySpace(t[0]) && !IsPySpace(t[|t| - 1]))
    ensures StripPySpace(t) == t
  {
  }

  /** Digit groups read as their value. */
  lemma PyIntOfGroups(body: string)
    requires IsDigitGroups(body)
    ensures PyInt(body) == Some(DigitsValue(DigitsOf(body)))
  {
    StripNothing(body);
    assert body[0] != '+' && body[0] != '-';
  }

  /** Digit groups after a minus sign read as their negated value. */
  lemma PyIntOfNegatedGroups(body: string)
    requires IsDigitGroups(body)
    ensures PyInt("-" + body) == Some(-(DigitsValue(DigitsOf(body)) as int))
  {
    var m := "-" + body;
    assert m[0] == '-' && m[1..] == body && m[|m| - 1] == body[|body| - 1];
    StripNothing(m);
  }

  /** The decimal text of a number, signed or not, reads back as that number. */
  lemma PyIntNatText(n: nat)
    ensures PyInt(NatText(n)) == Some(n)
    ensures PyInt("-" + NatText(n)) == Some(-(n as int))
  {
    var t := NatText(n);
    DigitsOfDigits(t);
    DigitsValueOfNatText(n);
    assert IsDigitGroups(t);
    PyIntOfGroups(t);
    PyIntOfNegatedGroups(t);
  }

  /** Text that holds no digit is no number. */
  lemma PyIntNeedsDigits(s: string)
    requires forall i :: 0 <= i < |s| ==> !IsDigit(s[i])
    ensures PyInt(s).None?
  {
    var t := StripPySpace(s);
    StripPySpaceInfix(s);
    var body := if t != [] && (t[0] == '+' || t[0] == '-') then t[1..] else t;
    if body != [] {
      var k := if body == t then 0 else 1;
      assert body[0] == t[k] && t[k] in s;
    }
  }

  lemma {:induction false} StripPySpaceInfix(s: string)
    ensures forall i :: 0 <= i < |StripPySpace(s)| ==> StripPySpace(s)[i] in s
  {
    if s != [] && IsPySpace(s[0]) {
      StripPySpaceInfix(s[1..]);
      assert forall c :: c in s[1..] ==> c in s;
    } else if s != [] && IsPySpace(s[|s| - 1]) {
      StripPySpaceInfix(s[..|s| - 1]);
      assert forall c :: c in s[..|s| - 1] ==> c in s;
    }
  }

  // ----- role assignment -----

  datatype AssignResponse =
    | ServerError500
    | Forbidden403
    | UserNotFound404
    | NotAList400
    | Assigned(userId: int, username: string, email: string, groupIds: set<int>)

  /** What `Group.objects.get(pk=entry)` makes of one entry of `group_ids`. */
  datatype PkLookup = ById(id: int) | NoRow | Raises

  /**
   * Django prepares the looked-up primary key with `int()`: a boolean is 1 or 0, text
   * reads as Python reads it, and text that is no number, a list or an object raises
   * ValueError or TypeError. `pk=None` becomes `IS NULL`, which no group satisfies.
   */
  function GroupPk(j: Json): PkLookup
  {
    match j
    case JNull => NoRow
    case JBool(b) => ById(if b then 1 else 0)
    case JNum(n) => ById(n)
    case JStr(s) => (match PyInt(s) case Some(n) => ById(n) case None => Raises)
    case JArr(_) => Raises
    case JObj(_) => Raises
  }

  /** How each kind of entry is looked up: numbers and their text alike, booleans as 1 and 0. */
  lemma GroupPkCoercions(n: nat, s: string, xs: seq<Json>, ms: seq<Member>)
    requires forall i :: 0 <= i < |s| ==> !IsDigit(s[i])
    ensures GroupPk(JNum(n)) == GroupPk(JStr(NatText(n))) == ById(n)
    ensures GroupPk(JNum(-(n as int))) == GroupPk(JStr("-" + NatText(n))) == ById(-(n as int))
    ensures GroupPk(JBool(true)) == ById(1) && GroupPk(JBool(false)) == ById(0)
    ensures GroupPk(JNull) == NoRow
    ensures GroupPk(JStr(s)) == GroupPk(JArr(xs)) == GroupPk(JObj(ms)) == Raises
  {
    PyIntNatText(n);
    PyIntNeedsDigits(s);
  }

  /** The group id an entry names, when `get` neither raises nor looks up `IS NULL`. */
  function GroupKey(j: Json): Option<int>
  {
    if GroupPk(j).ById? then Some(GroupPk(j).id) else None
  }

  /** The group an entry names, when one with that id exists. */
  function NamedGroup(j: Json, groups: seq<Group>): (s: set<int>)
    ensures |s| <= 1
  {
    if GroupKey(j).Some? && FindGroup(groups, GroupKey(j).value).Some? then {GroupKey(j).value} else {}
  }

  /** The ids of the groups the entries of `ids` name, in the order the view adds them. */
  function ExistingGroups(ids: seq<Json>, groups: seq<Group>): set<int>
  {
    if ids == [] then {}
    else ExistingGroups(ids[..|ids| - 1], groups) + NamedGroup(ids[|ids| - 1], groups)
  }

  /** One more entry adds the group it names, if that group exists. */
  lemma ExistingGroupsStep(ids: seq<Json>, i: nat, groups: seq<Group>)
    requires i < |ids|
    ensures ExistingGroups(ids[..i + 1], groups) ==
      ExistingGroups(ids[..i], groups) +
      (if GroupPk(ids[i]).ById? && FindGroup(groups, GroupPk(ids[i]).id).Some? then {GroupPk(ids[i]).id} else {})
  {
    assert ids[..i + 1][..i] == ids[..i];
  }

  /** The groups added are exactly the existing groups some entry names; the others are skipped. */
  lemma {:induction false} ExistingGroupsMembers(ids: seq<Json>, groups: seq<Group>, g: int)
    ensures g in ExistingGroups(ids, groups) <==>
      (exists x :: x in groups && x.id == g) && exists j :: j in ids && GroupKey(j) == Some(g)
  {
    if ids != [] {
      var front, last := ids[..|ids| - 1], ids[|ids| - 1];
      assert ids == front + [last];
      ExistingGroupsMembers(front, groups, g);
      if exists j :: j in ids && GroupKey(j) == Some(g) {
        var j :| j in ids && GroupKey(j) == Some(g);
        if j != last {
          assert j in front;
        }
      }
      if exists j :: j in front && GroupKey(j) == Some(g) {
        var j :| j in front && GroupKey(j) == Some(g);
        assert j in ids;
      }
    }
  }

  /** The posted `group_ids`, None when absent. */
  function GroupIdsField(data: Json): Option<Json>
  {
    Get(data, "group_ids")
  }

  /** The entries the view loops over: the posted list, or none when `group_ids` is absent. */
  function PostedIds(data: Json): seq<Json>
  {
    if GroupIdsField(data).Some? && GroupIdsField(data).value.JArr? then GroupIdsField(data).value.items else []
  }

  /** The request gets past every check to `clear()` and the loop. */
  predicate ReachesLoop(users: seq<User>, requester: User, pk: int, data: Json)
  {
    && IsAdminAccount(requester) && FindUser(users, pk).Some? && data.JObj?
    && (GroupIdsField(data).None? || GroupIdsField(data).value.JArr?)
  }

  /** Some entry makes `Group.objects.get` raise. */
  predicate SomeEntryRaises(ids: seq<Json>)
  {
    exists j :: j in ids && GroupPk(j).Raises?
  }

  /** The entries the loop gets through before one makes `get` raise; all of them when none does. */
  function BeforeRaise(ids: seq<Json>): (pre: seq<Json>)
    ensures pre <= ids
    ensures forall j :: j in pre ==> !GroupPk(j).Raises?
    ensures pre == ids || GroupPk(ids[|pre|]).Raises?
  {
    if ids == [] || GroupPk(ids[0]).Raises? then []
    else
      var rest := BeforeRaise(ids[1..]);
      assert ids == [ids[0]] + ids[1..];
      [ids[0]] + rest
  }

  /**
   * An entry that does not raise extends the entries got through, for `pre` a prefix
   * of `ids` that is all of it or stops at a raising entry, as `BeforeRaise` is.
   */
  lemma BeforeRaiseStep(ids: seq<Json>, pre: seq<Json>, i: nat)
    requires pre <= ids && (pre == ids || GroupPk(ids[|pre|]).Raises?)
    requires i < |ids| && ids[..i] <= pre && !GroupPk(ids[i]).Raises?
    ensures ids[..i + 1] <= pre
  {
    assert |pre| == i ==> pre != ids;
    assert |pre| > i;
    assert pre[..i + 1] == ids[..i + 1];
  }

  /** The loop ends at entry `i`: raising there, or having got through every entry. */
  lemma StopsAt(ids: seq<Json>, i: nat)
    requires i <= |ids| && ids[..i] <= BeforeRaise(ids)
    requires i == |ids| || GroupPk(ids[i]).Raises?
    ensures BeforeRaise(ids) == ids[..i]
    ensures SomeEntryRaises(ids) <==> i < |ids|
  {
    var pre := BeforeRaise(ids);
    if i < |ids| {
      forall k | 0 <= k < |pre|
        ensures !GroupPk(ids[k]).Raises?
      {
        assert pre[k] in pre;
      }
      assert |pre| == i;
      assert ids[i] in ids;
    } else {
      assert ids[..i] == ids;
    }
  }

  /** `[a, "x", b]`: the adds stop at "x", so `a` is added and `b` is not, and the view answers 500. */
  lemma RaiseStopsTheAdds(a: int, b: int)
    ensures BeforeRaise([JNum(a), JStr("x"), JNum(b)]) == [JNum(a)]
    ensures SomeEntryRaises([JNum(a), JStr("x"), JNum(b)])
  {
    var ids := [JNum(a), JStr("x"), JNum(b)];
    PyIntNeedsDigits("x");
    assert GroupPk(ids[1]).Raises?;
    StopsAt(ids, 1);
  }

  /**
   * `AssignRoleView.post` by `requester` for user `pk` with request body `data`.
   * `request.data.get` raises on a body that is not an object, and an entry that makes
   * `Group.objects.get` raise ends the request with a 500 after `clear()` and the adds
   * before it have taken effect.
   */
  method AssignRole(dir: Directory, requester: User, pk: int, data: Json) returns (r: AssignResponse)
    modifies dir`memberships
    ensures requester.profile.None? ==> r == ServerError500
    ensures requester.profile.Some? && !IsAdminAccount(requester) ==> r == Forbidden403
    ensures IsAdminAccount(requester) && FindUser(old(dir.users), pk).None? ==> r == UserNotFound404
    ensures IsAdminAccount(requester) && FindUser(old(dir.users), pk).Some? && !data.JObj? ==> r == ServerError500
    ensures (IsAdminAccount(requester) && FindUser(old(dir.users), pk).Some? &&
             GroupIdsField(data).Some? && !GroupIdsField(data).value.JArr?) ==> r == NotAList400
    ensures !ReachesLoop(old(dir.users), requester, pk, data) ==> dir.memberships == old(dir.memberships)
    ensures ReachesLoop(old(dir.users), requester, pk, data) ==>
      && dir.memberships == old(dir.memberships)[pk := ExistingGroups(BeforeRaise(PostedIds(data)), old(dir.groups))]
      && (r == ServerError500 <==> SomeEntryRaises(PostedIds(data)))
      && (r.Assigned? <==> !SomeEntryRaises(PostedIds(data)))
    ensures r.Assigned? ==>
      && ReachesLoop(old(dir.users), requester, pk, data)
      && r.userId == pk
      && r.groupIds == ExistingGroups(PostedIds(data), old(dir.groups))
  {
    if requester.profile.None? {
      return ServerError500;
    }
    if !(requester.profile.value.userType == "admin") {
      return Forbidden403;
    }
    var user := FindUser(dir.users, pk);
    if user.None? {
      return UserNotFound404;
    }
    if !data.JObj? {
      return ServerError500;
    }
    var field := GroupIdsField(data);
    var groupIds := if field.Some? then field.value else JArr([]);
    if !groupIds.JArr? {
      return NotAList400;
    }
    var ids := groupIds.items;
    var raised := ReplaceGroups(dir, pk, ids);
    if raised {
      return ServerError500;
    }
    var u := user.value;
    return Assigned(u.id, u.username, u.email, ExistingGroups(ids, dir.groups));
  }

  /**
   * `user.groups.clear()` followed by the loop that adds each existing group `ids`
   * names; `raised` is an entry making `Group.objects.get` raise, which ends the loop.
   */
  method ReplaceGroups(dir: Directory, pk: int, ids: seq<Json>) returns (raised: bool)
    modifies dir`memberships
    ensures raised <==> SomeEntryRaises(ids)
    ensures dir.memberships == old(dir.memberships)[pk := ExistingGroups(BeforeRaise(ids), dir.groups)]
  {
    dir.memberships := dir.memberships[pk := {}];
    var i := 0;
    while i < |ids|
      invariant 0 <= i <= |ids|
      invariant ids[..i] <= BeforeRaise(ids)
      invariant dir.memberships == old(dir.memberships)[pk := ExistingGroups(ids[..i], dir.groups)]
    {
      var entry := GroupPk(ids[i]);
      if entry.Raises? {
        StopsAt(ids, i);
        return true;
      }
      var group := if entry.ById? then FindGroup(dir.groups, entry.id) else None;
      ghost var added := if group.Some? then {group.value.id} else {};
      BeforeRaiseStep(ids, BeforeRaise(ids), i);
      ExistingGroupsStep(ids, i, dir.groups);
      AddedStep(old(dir.memberships), pk, ExistingGroups(ids[..i], dir.groups), added);
      if group.Some? {
        dir.AddToGroup(pk, group.value.id);
      }
      assert dir.memberships == old(dir.memberships)[pk := ExistingGroups(ids[..i], dir.groups) + added];
      i := i + 1;
    }
    StopsAt(ids, i);
    return false;
  }

  /** Adding to a user's replaced groups is replacing them with the union. */
  lemma AddedStep(m: map<int, set<int>>, pk: int, done: set<int>, added: set<int>)
    ensures m[pk := done][pk := done + added] == m[pk := done + added]
  {
  }

  /** `Group.objects.get(pk=id)`. */
  function FindGroup(groups: seq<Group>, id: int): (r: Option<Group>)
    ensures r.None? <==> forall x :: x in groups ==> x.id != id
    ensures r.Some? ==> r.value in groups && r.value.id == id
  {
    if groups == [] then None
    else if groups[0].id == id then Some(groups[0])
    else FindGroup(groups[1..], id)
  }
}
