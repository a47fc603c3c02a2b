/** The logout thunk of `features/auth/authThunks.ts`. */
module AuthThunks {
  import opened Browser
  import AuthUtils
  import AuthSlice
  import ApiCache

  /**
   * Clears the token store, runs the slice's `logout` (which clears its own two keys)
   * and resets the query cache, in that order. Afterwards none of the three session
   * keys remains, every other key is untouched, the session is signed out and the
   * cache is empty.
   */
  method LogoutThunk(ls: LocalStorage, auth: AuthSlice.AuthSlice, cache: ApiCache.ApiCache)
    requires auth.storage == ls
    modifies ls, auth, cache
    ensures ls.items == old(ls.items) - {AuthUtils.AccessTokenKey, AuthUtils.UserKey, AuthSlice.TokenKey}
    ensures auth.state == AuthSlice.LoggedOut(old(auth.state))
    ensures !auth.state.isAuthenticated && auth.state.token.JNull? && auth.state.user.JNull? && auth.state.error.None?
    ensures AuthSlice.LoadAuthState(ls.items) == AuthSlice.SignedOut
    ensures cache.entries == map[]
  {
    AuthUtils.ClearAuthData(ls);
    auth.Logout();
    cache.ResetApiState();
  }
}
