/**
 * The Redux `auth` slice (`features/auth/authSlice.ts`): the session state, loaded
 * from `localStorage` at start-up, and the reducers that change it. The reducers that
 * log in or out also write through to storage, under `"token"` and `"user"` as JSON.
 */
module AuthSlice {
  import opened Wrappers
  import opened Json
  import opened Browser

  const TokenKey := "token"
  const UserKey := "user"

  /** The slice state; JNull and None stand for null. */
  datatype AuthState = AuthState(token: Json, user: Json, isAuthenticated: bool, error: Option<string>, loading: bool)

  /** The empty, unauthenticated state `loadAuthState` falls back to. */
  const SignedOut := AuthState(JNull, JNull, false, None, false)

  /** The state as `loadAuthState` rebuilds it from storage. */
  function LoadAuthState(items: map<string, string>): (s: AuthState)
    ensures s.isAuthenticated <==>
              TokenKey in items && items[TokenKey] != "" && Parse(items[TokenKey]).Some? &&
              UserKey in items && items[UserKey] != "" && Parse(items[UserKey]).Some?
    ensures s.isAuthenticated ==>
              s == AuthState(Parse(items[TokenKey]).value, Parse(items[UserKey]).value, true, None, false)
    ensures !s.isAuthenticated ==> s == SignedOut
  {
    var token := Stored(items, TokenKey);
    var user := Stored(items, UserKey);
    if token.None? || user.None? || token.value == "" || user.value == "" then SignedOut
    else if Parse(token.value).None? || Parse(user.value).None? then SignedOut
    else AuthState(Parse(token.value).value, Parse(user.value).value, true, None, false)
  }

  /** What the `logout` reducer does to a state. */
  function LoggedOut(s: AuthState): (r: AuthState)
    ensures !r.isAuthenticated && r.token == JNull && r.user == JNull && r.error.None?
    ensures r.loading == s.loading
  {
    s.(isAuthenticated := false, token := JNull, user := JNull, error := None)
  }

  /** Storage written by `loginSuccess` loads back as the same session, authenticated. */
  lemma LoginSuccessThenLoad(items: map<string, string>, token: Json, user: Json)
    ensures LoadAuthState(items[TokenKey := Stringify(token)][UserKey := Stringify(user)])
            == AuthState(token, user, true, None, false)
  {
    StringifyNotUndefined(token);
    StringifyNotUndefined(user);
    ParseStringify(token);
    ParseStringify(user);
  }

  class AuthSlice {
    var state: AuthState
    const storage: LocalStorage

    /** The store's `initialState` is whatever `loadAuthState` reads. */
    constructor (storage: LocalStorage)
      ensures this.storage == storage && state == LoadAuthState(storage.items)
    {
      this.storage := storage;
      state := LoadAuthState(storage.items);
    }

    method LoginStart()
      modifies this
      ensures state == old(state).(loading := true, error := None)
    {
      state := state.(loading := true, error := None);
    }

    /** Signs in and saves token and user; the saved session loads back as the new state. */
    method LoginSuccess(token: Json, user: Json)
      modifies this, storage
      ensures state == old(state).(loading := false, isAuthenticated := true, token := token, user := user)
      ensures storage.items == old(storage.items)[TokenKey := Stringify(token)][UserKey := Stringify(user)]
      ensures LoadAuthState(storage.items) == state.(error := None)
    {
      state := state.(loading := false, isAuthenticated := true, token := token, user := user);
      storage.SetItem(TokenKey, Stringify(token));
      storage.SetItem(UserKey, Stringify(user));
      LoginSuccessThenLoad(old(storage.items), token, user);
    }

    /** Records the error and clears the session in the state only; storage is not touched. */
    method LoginFailure(message: string)
      modifies this
      ensures state == old(state).(loading := false, error := Some(message), isAuthenticated := false,
                                   token := JNull, user := JNull)
    {
      state := state.(loading := false, error := Some(message), isAuthenticated := false, token := JNull, user := JNull);
    }

    /** Clears the session and its two storage keys; a reload afterwards is signed out. */
    method Logout()
      modifies this, storage
      ensures state == LoggedOut(old(state))
      ensures storage.items == old(storage.items) - {TokenKey, UserKey}
      ensures LoadAuthState(storage.items) == SignedOut
    {
      state := LoggedOut(state);
      storage.RemoveItem(TokenKey);
      storage.RemoveItem(UserKey);
    }

    /** Replaces the token only; `isAuthenticated` keeps its value, even when false. */
    method UpdateToken(token: string)
      modifies this, storage
      ensures state == old(state).(token := JStr(token))
      ensures storage.items == old(storage.items)[TokenKey := Stringify(JStr(token))]
    {
      state := state.(token := JStr(token));
      storage.SetItem(TokenKey, Stringify(JStr(token)));
    }
  }
}
