/**
 * The RTK Query base of `api/apiSlice.ts`: `prepareHeaders` adds the bearer token read
 * from `localStorage`, and `baseQueryWithReauth` answers a 401 with one refresh request
 * followed by either one retry or a logout.
 */
module ApiSlice {
  import opened Wrappers
  import opened Json
  import opened Http
  import opened Browser
  import AuthUtils
  import AuthSlice

  /**
   * The Authorization value `prepareHeaders` sets: none when `api.extra.skipAuth` is set,
   * otherwise `Bearer <token>` (section 2.1 of RFC 6750) exactly when a non-empty token is stored.
   */
  function Authorization(skipAuth: bool, token: Option<string>): (h: Option<string>)
    ensures h.Some? <==> !skipAuth && token.Some? && token.value != ""
    ensures h.Some? ==> h.value == "Bearer " + token.value
  {
    if skipAuth then None
    else if token.Some? && token.value != "" then Some("Bearer " + token.value)
    else None
  }

  /** The headers of a request whose headers start empty, as `fetchBaseQuery`'s do. */
  function AuthHeaders(skipAuth: bool, token: Option<string>): (h: map<string, string>)
    ensures AuthorizationHeader in h <==> Authorization(skipAuth, token).Some?
    ensures h.Keys <= {AuthorizationHeader}
    ensures AuthorizationHeader in h ==> h[AuthorizationHeader] == Authorization(skipAuth, token).value
  {
    match Authorization(skipAuth, token)
    case None => map[]
    case Some(v) => map[AuthorizationHeader := v]
  }

  /** The token `getToken` reads. */
  function StoredToken(items: map<string, string>): Option<string>
  {
    Stored(items, AuthUtils.AccessTokenKey)
  }

  method PrepareHeaders(headers: Headers, skipAuth: bool, ls: LocalStorage)
    modifies headers
    ensures headers.entries ==
              match Authorization(skipAuth, StoredToken(ls.items))
              case None => old(headers.entries)
              case Some(v) => old(headers.entries)[AuthorizationHeader := v]
  {
    if skipAuth {
      return;
    }
    var token := AuthUtils.GetToken(ls);
    if token.Some? && token.value != "" {
      headers.Set(AuthorizationHeader, "Bearer " + token.value);
    }
  }

  /** `baseQuery`: one request, its headers prepared from the current storage. */
  method BaseQuery(net: Network, ls: LocalStorage, args: Args, skipAuth: bool) returns (r: QueryResult)
    modifies net
    ensures net.sent == old(net.sent) + [Sent(args, AuthHeaders(skipAuth, StoredToken(ls.items)))]
    ensures r == net.respond(|old(net.sent)|, net.sent[|old(net.sent)|])
  {
    var headers := new Headers();
    PrepareHeaders(headers, skipAuth, ls);
    r := net.Fetch(Sent(args, headers.entries));
  }

  /** The refresh request: it carries only the HttpOnly cookie. */
  const RefreshArgs := Args("/auth/refresh/", "POST", map[])

  /** `if (refreshResult.data)`. */
  predicate RefreshSucceeded(r: QueryResult)
  {
    r.Data? && Truthy(r.data)
  }

  /** What `localStorage.setItem("access_token", access)` stores: `access`, or "undefined" when absent. */
  function NewAccess(r: QueryResult): string
    requires r.Data?
  {
    OptionToJsString(Get(r.data, "access"))
  }

  /**
   * `baseQueryWithReauth`. The first answer, unless it is a 401, is returned as it is.
   * A 401 leads to exactly one refresh request without bearer header, sent through the
   * plain base query so that its own 401 cannot start another refresh. When the refresh
   * returns data, its `access` is stored under the key `getToken` reads and the original
   * request is sent once more, carrying the new token, and its answer is returned.
   * Otherwise `auth/logout` is dispatched to the auth slice and the first 401 is returned.
   */
  method BaseQueryWithReauth(net: Network, ls: LocalStorage, auth: AuthSlice.AuthSlice, args: Args, skipAuth: bool)
    returns (r: QueryResult)
    requires auth.storage == ls
    modifies net, ls, auth
    ensures var n := |old(net.sent)|;
            n < |net.sent| <= n + 3 && net.sent[..n] == old(net.sent) &&
            net.sent[n] == Sent(args, AuthHeaders(skipAuth, StoredToken(old(ls.items))))
    ensures var n := |old(net.sent)|;
            var first := net.respond(n, net.sent[n]);
            !IsUnauthorized(first) ==>
              |net.sent| == n + 1 && r == first && ls.items == old(ls.items) && auth.state == old(auth.state)
    ensures var n := |old(net.sent)|;
            IsUnauthorized(net.respond(n, net.sent[n])) ==>
              |net.sent| >= n + 2 && net.sent[n + 1] == Sent(RefreshArgs, map[])
    ensures var n := |old(net.sent)|;
            IsUnauthorized(net.respond(n, net.sent[n])) && RefreshSucceeded(net.respond(n + 1, net.sent[n + 1])) ==>
              var access := NewAccess(net.respond(n + 1, net.sent[n + 1]));
              |net.sent| == n + 3 &&
              ls.items == old(ls.items)[AuthUtils.AccessTokenKey := access] && auth.state == old(auth.state) &&
              net.sent[n + 2] == Sent(args, AuthHeaders(skipAuth, Some(access))) &&
              r == net.respond(n + 2, net.sent[n + 2])
    ensures var n := |old(net.sent)|;
            var first := net.respond(n, net.sent[n]);
            IsUnauthorized(first) && !RefreshSucceeded(net.respond(n + 1, net.sent[n + 1])) ==>
              |net.sent| == n + 2 && r == first &&
              auth.state == AuthSlice.LoggedOut(old(auth.state)) &&
              ls.items == old(ls.items) - {AuthSlice.TokenKey, AuthSlice.UserKey}
  {
    r := BaseQuery(net, ls, args, skipAuth);
    if IsUnauthorized(r) {
      var refreshResult := BaseQuery(net, ls, RefreshArgs, true);
      if RefreshSucceeded(refreshResult) {
        var access := NewAccess(refreshResult);
        ls.SetItem(AuthUtils.AccessTokenKey, access);
        r := BaseQuery(net, ls, args, skipAuth);
      } else {
        auth.Logout();
      }
    }
  }
}
