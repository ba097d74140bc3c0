/** The session (contexts/AuthContext.tsx): the provider restores a session
    from the stored access token, signs in and out, and keeps the token in
    browser storage, in its own state and in the API service. */
module AuthContext {
  import opened Common
  import opened Domain
  import Api

  const AccessKey := "access_token"
  const RefreshKey := "refresh_token"
  const NoProvider := "useAuth must be used within an AuthProvider"

  /** `LoginResponse` (types/api.ts): the token pair the sign-in call
      returns. */
  datatype LoginResponse = LoginResponse(access: string, refresh: string)

  /** The browser's `localStorage`, as a string-to-string map. */
  class LocalStorage {
    var items: map<string, string>

    constructor (items: map<string, string>)
      ensures this.items == items
    {
      this.items := items;
    }

    /** `getItem(key)`: `null` for a missing key. */
    function GetItem(key: string): (r: Option<string>)
      reads this
      ensures r.Some? <==> key in items
      ensures r.Some? ==> r.value == items[key]
    {
      if key in items then Some(items[key]) else None
    }

    method SetItem(key: string, value: string)
      modifies this
      ensures items == old(items)[key := value]
    {
      items := items[key := value];
    }

    method RemoveItem(key: string)
      modifies this
      ensures items == old(items) - {key}
    {
      items := items - {key};
    }
  }

  /** Neither token is stored any more; every other key is untouched. */
  predicate TokensCleared(before: map<string, string>, after: map<string, string>)
  {
    after == before - {AccessKey, RefreshKey}
  }

  class AuthProvider {
    var user: Option<User>
    var token: Option<string>
    var isLoading: bool
    const storage: LocalStorage
    const api: Api.ApiService

    /** The initial state: no user, the token read from storage, loading
        until the session has been restored. */
    constructor (storage: LocalStorage, api: Api.ApiService)
      ensures this.storage == storage && this.api == api
      ensures user == None && token == storage.GetItem(AccessKey) && isLoading
    {
      this.storage := storage;
      this.api := api;
      user := None;
      token := storage.GetItem(AccessKey);
      isLoading := true;
    }

    /** The state token is what storage holds under the access key. */
    predicate Stored()
      reads this, storage
    {
      token == storage.GetItem(AccessKey)
    }

    /** `initializeAuth`, once `getCurrentUser()` has produced `outcome`.
        Without a token no call is made; a rejected token is forgotten
        everywhere. */
    method InitializeAuth(outcome: Result<User, Thrown>) returns (issued: seq<Api.Operation>)
      modifies this`user, this`token, this`isLoading, storage, api`token
      ensures !isLoading
      ensures !Truthy(old(token)) ==>
        issued == [] && user == old(user) && token == old(token) &&
        storage.items == old(storage.items) && api.token == old(api.token)
      ensures Truthy(old(token)) ==> issued == [Api.GetCurrentUser]
      ensures Truthy(old(token)) && outcome.Ok? ==>
        user == Some(outcome.value) && token == old(token) && api.token == token &&
        storage.items == old(storage.items)
      ensures Truthy(old(token)) && outcome.Err? ==>
        user == old(user) && token == None && api.token == None &&
        TokensCleared(old(storage.items), storage.items)
      ensures old(Stored()) ==> Stored()
    {
      issued := [];
      if token.Some? && token.value != "" {
        api.SetToken(token);
        issued := [Api.GetCurrentUser];
        if outcome.Ok? {
          user := Some(outcome.value);
        } else {
          storage.RemoveItem(AccessKey);
          storage.RemoveItem(RefreshKey);
          token := None;
          api.SetToken(None);
        }
      }
      isLoading := false;
    }

    /** `login(username, password)`, given what the sign-in call and the
        identity call that follows it produce; `thrown` is the error the
        caller receives, unchanged. */
    method Login(username: string, password: string,
                 response: Result<LoginResponse, Thrown>, me: Result<User, Thrown>)
      returns (issued: seq<Api.Operation>, thrown: Option<Thrown>)
      modifies this`user, this`token, this`isLoading, storage, api`token
      ensures !isLoading
      ensures response.Err? ==>
        issued == [Api.Login(username, password)] && thrown == Some(response.error) &&
        user == old(user) && token == old(token) &&
        storage.items == old(storage.items) && api.token == old(api.token)
      ensures response.Ok? ==>
        issued == [Api.Login(username, password), Api.GetCurrentUser] &&
        storage.items == old(storage.items)[AccessKey := response.value.access][RefreshKey := response.value.refresh] &&
        token == Some(response.value.access) && api.token == token
      ensures response.Ok? && me.Ok? ==> user == Some(me.value) && thrown == None
      ensures response.Ok? && me.Err? ==> user == old(user) && thrown == Some(me.error)
      ensures old(Stored()) || response.Ok? ==> Stored()
    {
      isLoading := true;
      issued := [Api.Login(username, password)];
      if response.Err? {
        thrown := Some(response.error);
        isLoading := false;
        return;
      }
      storage.SetItem(AccessKey, response.value.access);
      storage.SetItem(RefreshKey, response.value.refresh);
      api.SetToken(Some(response.value.access));
      token := Some(response.value.access);
      issued := issued + [Api.GetCurrentUser];
      if me.Ok? {
        user := Some(me.value);
        thrown := None;
      } else {
        thrown := Some(me.error);
      }
      isLoading := false;
    }

    /** `logout()`: the session is forgotten everywhere, with no remote
        call. */
    method Logout()
      modifies this`user, this`token, storage, api`token
      ensures user == None && token == None && api.token == None
      ensures TokensCleared(old(storage.items), storage.items)
      ensures Stored()
    {
      storage.RemoveItem(AccessKey);
      storage.RemoveItem(RefreshKey);
      api.SetToken(None);
      token := None;
      user := None;
    }
  }

  /** `useAuth()`: the context value, or the error thrown outside a
      provider. */
  function UseAuth(context: Option<AuthProvider>): (r: Result<AuthProvider, Thrown>)
    ensures r.Ok? <==> context.Some?
    ensures r.Ok? ==> r.value == context.value
    ensures r.Err? ==> r.error == Error(PlainError, NoProvider)
  {
    if context.Some? then Ok(context.value) else Err(Error(PlainError, NoProvider))
  }

  /** Removing the tokens leaves nothing to restore a session from, and
      removing them again changes nothing. */
  lemma ClearedStaysCleared(before: map<string, string>, after: map<string, string>)
    requires TokensCleared(before, after)
    ensures AccessKey !in after && RefreshKey !in after
    ensures TokensCleared(after, after)
    ensures forall k :: k in before && k != AccessKey && k != RefreshKey ==> k in after && after[k] == before[k]
  {
  }
}
