/**
 * The client's token and user store in `localStorage` (`utils/authUtils.ts`):
 * the raw access token under `"access_token"` and the JSON-encoded user under `"user"`.
 */
module AuthUtils {
  import opened Wrappers
  import opened Json
  import opened Browser

  const AccessTokenKey := "access_token"
  const UserKey := "user"

  /** `JSON.parse` threw. */
  datatype SyntaxError = SyntaxError

  /**
   * The text `localStorage.setItem("user", JSON.stringify(user))` stores. None is
   * `undefined`: `JSON.stringify(undefined)` is `undefined`, which `setItem` coerces to
   * the string "undefined"; no JSON value encodes to that text or to "".
   */
  function UserText(user: Option<Json>): (t: string)
    ensures user.None? <==> t == "undefined"
    ensures t != ""
  {
    match user
    case None => "undefined"
    case Some(v) => StringifyNotUndefined(v); Stringify(v)
  }

  /**
   * What `getUser` makes of the stored text: null for a missing entry, "" or "undefined",
   * otherwise `JSON.parse` of the text, which may throw.
   */
  function DecodeUser(stored: Option<string>): (r: Result<Json, SyntaxError>)
    ensures stored.None? || stored == Some("") || stored == Some("undefined") ==> r == Ok(JNull)
    ensures stored.Some? && stored.value != "" && stored.value != "undefined" ==>
              (r.Ok? <==> Parse(stored.value).Some?) && (r.Ok? ==> Parse(stored.value) == Some(r.value))
  {
    if stored.None? || stored.value == "" || stored.value == "undefined" then Ok(JNull)
    else
      match Parse(stored.value)
      case None => Err(SyntaxError)
      case Some(v) => Ok(v)
  }

  /** Reading back what `setUser` wrote gives the user, and null for `undefined`. */
  lemma UserRoundTrip(user: Option<Json>)
    ensures DecodeUser(Some(UserText(user))) == Ok(user.GetOr(JNull))
  {
    if user.Some? {
      StringifyNotUndefined(user.value);
      ParseStringify(user.value);
    }
  }

  method SetToken(ls: LocalStorage, token: string)
    modifies ls
    ensures ls.items == old(ls.items)[AccessTokenKey := token]
  {
    ls.SetItem(AccessTokenKey, token);
  }

  method SetUser(ls: LocalStorage, user: Option<Json>)
    modifies ls
    ensures ls.items == old(ls.items)[UserKey := UserText(user)]
  {
    ls.SetItem(UserKey, UserText(user));
  }

  method GetToken(ls: LocalStorage) returns (token: Option<string>)
    ensures token == Stored(ls.items, AccessTokenKey)
  {
    token := ls.GetItem(AccessTokenKey);
  }

  method GetUser(ls: LocalStorage) returns (user: Result<Json, SyntaxError>)
    ensures user == DecodeUser(Stored(ls.items, UserKey))
  {
    var stored := ls.GetItem(UserKey);
    if stored.None? || stored.value == "" || stored.value == "undefined" {
      return Ok(JNull);
    }
    var parsed := Parse(stored.value);
    if parsed.None? {
      return Err(SyntaxError);
    }
    user := Ok(parsed.value);
  }

  method RemoveToken(ls: LocalStorage)
    modifies ls
    ensures ls.items == old(ls.items) - {AccessTokenKey}
  {
    ls.RemoveItem(AccessTokenKey);
  }

  /** `removeUser` as written: it removes the access token, not the user. */
  method RemoveUser(ls: LocalStorage)
    modifies ls
    ensures ls.items == old(ls.items) - {AccessTokenKey}
  {
    ls.RemoveItem(AccessTokenKey);
  }

  /** A user stored by `setUser` is still returned by `getUser` after `removeUser`. */
  method RemoveUserLeavesUser() returns (before: Result<Json, SyntaxError>, after: Result<Json, SyntaxError>)
    ensures before == after == Ok(JStr("ada"))
  {
    var ls := new LocalStorage(map[]);
    SetUser(ls, Some(JStr("ada")));
    UserRoundTrip(Some(JStr("ada")));
    before := GetUser(ls);
    RemoveUser(ls);
    after := GetUser(ls);
  }

  /** `removeUser` as its name promises: it removes the user and nothing else, so `getUser` returns null. */
  method RemoveUserIntended(ls: LocalStorage)
    modifies ls
    ensures ls.items == old(ls.items) - {UserKey}
    ensures DecodeUser(Stored(ls.items, UserKey)) == Ok(JNull)
  {
    ls.RemoveItem(UserKey);
  }

  /** Removes exactly the access token and the user; every other key keeps its value. */
  method ClearAuthData(ls: LocalStorage)
    modifies ls
    ensures ls.items == old(ls.items) - {AccessTokenKey, UserKey}
    ensures Stored(ls.items, AccessTokenKey).None? && DecodeUser(Stored(ls.items, UserKey)) == Ok(JNull)
  {
    ls.RemoveItem(AccessTokenKey);
    ls.RemoveItem(UserKey);
  }

  /** `!!getToken()`: a non-empty access token is stored. */
  method IsAuthenticated(ls: LocalStorage) returns (b: bool)
    ensures b <==> AccessTokenKey in ls.items && ls.items[AccessTokenKey] != ""
  {
    var token := GetToken(ls);
    b := token.Some? && token.value != "";
  }

  /** How the promise returned by `refreshFn` settles: resolved with a value, or rejected. */
  datatype RefreshOutcome = Resolved(result: Json) | Threw

  /**
   * The `try` block ends in the `catch`: the promise rejected, or it resolved with
   * `null`, on which reading `result.data` raises a `TypeError`.
   */
  predicate Fails(outcome: RefreshOutcome)
  {
    outcome.Threw? || outcome.result.JNull?
  }

  /**
   * The token `handleTokenExpiration` stores for a resolved refresh: `result.data.access`
   * when both are truthy, coerced to a string by `setItem`; None when nothing is stored.
   */
  function RefreshedAccess(result: Json): (token: Option<string>)
    ensures token.Some? <==>
              exists data, access :: Get(result, "data") == Some(data) && Truthy(data) &&
                                     Get(data, "access") == Some(access) && Truthy(access)
    ensures token.Some? ==> token == Some(ToJsString(Get(Get(result, "data").value, "access").value))
  {
    match Get(result, "data")
    case Some(data) =>
      if Truthy(data) then
        match Get(data, "access")
        case Some(access) => if Truthy(access) then Some(ToJsString(access)) else None
        case None => None
      else None
    case None => None
  }

  /**
   * Calls the refresh function (its outcome is the parameter) and stores the new token.
   * True iff a truthy `data.access` came back, which is then stored; false with storage
   * untouched when a non-null value without one came back; false with both keys
   * cleared when the call threw or resolved with `null`.
   */
  method HandleTokenExpiration(ls: LocalStorage, outcome: RefreshOutcome) returns (refreshed: bool)
    modifies ls
    ensures refreshed <==> outcome.Resolved? && RefreshedAccess(outcome.result).Some?
    ensures refreshed ==> ls.items == old(ls.items)[AccessTokenKey := RefreshedAccess(outcome.result).value]
    ensures !Fails(outcome) && !refreshed ==> ls.items == old(ls.items)
    ensures Fails(outcome) ==> !refreshed && ls.items == old(ls.items) - {AccessTokenKey, UserKey}
  {
    if Fails(outcome) {
      ClearAuthData(ls);
      return false;
    }
    var token := RefreshedAccess(outcome.result);
    if token.Some? {
      SetToken(ls, token.value);
      return true;
    }
    return false;
  }
}
