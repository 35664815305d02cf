/**
 * The session provider (src/app/context/auth-provider.tsx): a `user` that is null
 * (anonymous) or a user (authenticated), kept in step with `localStorage` by
 * `login` and `logout`, and restored once from `auth_user` when it mounts.
 */
module AuthProvider {
  import opened Wrappers
  import opened AuthTypes
  import opened Storage
  import UserJson
  import AuthService

  /** What the mount effect found in `auth_user`. */
  datatype Hydration = Skipped | Restored(saved: User) | ParseFailed

  /**
   * The mount effect's reading of the store: nothing to do unless `auth_user` holds a
   * truthy (non-empty) string; a string `UserJson.Parse` rejects stands for `JSON.parse` throwing.
   */
  function HydrationOf(items: map<string, string>): (h: Hydration)
    ensures h.Skipped? <==> UserKey !in items || items[UserKey] == ""
    ensures h.Restored? ==> UserKey in items && UserJson.Parse(items[UserKey]) == Some(h.saved)
    ensures h.ParseFailed? <==> UserKey in items && items[UserKey] != "" && UserJson.Parse(items[UserKey]).None?
  {
    match Lookup(items, UserKey)
    case None => Skipped
    case Some(saved) =>
      if saved == "" then Skipped
      else match UserJson.Parse(saved)
        case None => ParseFailed
        case Some(u) => Restored(u)
  }

  /** The store after `login(data)`: both session keys written, every other key as it was. */
  function StoreAfterLogin(items: map<string, string>, data: AuthResponse): (r: map<string, string>)
    ensures UserKey in r && r[UserKey] == UserJson.Serialize(data.user)
    ensures TokenKey in r && r[TokenKey] == data.accessToken
    ensures r.Keys == items.Keys + {UserKey, TokenKey}
    ensures forall k :: k in items && k != UserKey && k != TokenKey ==> r[k] == items[k]
  {
    items[UserKey := UserJson.Serialize(data.user)][TokenKey := data.accessToken]
  }

  /** The store after `logout()`: both session keys gone, every other key as it was. */
  function StoreAfterLogout(items: map<string, string>): (r: map<string, string>)
    ensures UserKey !in r && TokenKey !in r
    ensures r.Keys == items.Keys - {UserKey, TokenKey}
    ensures forall k :: k in r ==> r[k] == items[k]
  {
    items - {UserKey, TokenKey}
  }

  /** The persisted session is never half there: the user and the token are present together. */
  predicate SessionPaired(items: map<string, string>)
  {
    UserKey in items <==> TokenKey in items
  }

  class AuthProvider {
    var user: Option<User>
    const storage: LocalStorage

    /** The provider starts anonymous, before the mount effect runs. */
    constructor (storage: LocalStorage)
      ensures this.storage == storage && user == None
    {
      this.storage := storage;
      user := None;
    }

    /** The one-time mount effect: restore `user` from `auth_user` when it holds a user. */
    method Hydrate() returns (h: Hydration)
      modifies this`user
      ensures h == HydrationOf(storage.items)
      ensures user == if h.Restored? then Some(h.saved) else old(user)
    {
      var saved := storage.GetItem(UserKey);
      if saved.Some? && saved.value != "" {
        var parsed := UserJson.Parse(saved.value);
        if parsed.Some? {
          user := parsed;
          h := Restored(parsed.value);
        } else {
          h := ParseFailed;
        }
      } else {
        h := Skipped;
      }
    }

    method Login(data: AuthResponse)
      modifies this`user, storage
      ensures user == Some(data.user)
      ensures storage.items == StoreAfterLogin(old(storage.items), data)
    {
      user := Some(data.user);
      storage.SetItem(UserKey, UserJson.Serialize(data.user));
      storage.SetItem(TokenKey, data.accessToken);
    }

    method Logout()
      modifies this`user, storage
      ensures user == None
      ensures storage.items == StoreAfterLogout(old(storage.items))
    {
      user := None;
      storage.RemoveItem(UserKey);
      storage.RemoveItem(TokenKey);
    }
  }

  /** A reload after login restores the user who logged in. */
  lemma ReloadAfterLogin(items: map<string, string>, data: AuthResponse)
    ensures HydrationOf(StoreAfterLogin(items, data)) == Restored(data.user)
  {
    UserJson.ParseSerialize(data.user);
  }

  /** A reload after logout stays anonymous, whatever was stored before. */
  lemma ReloadAfterLogout(items: map<string, string>)
    ensures HydrationOf(StoreAfterLogout(items)) == Skipped
  {
  }

  /** Logging out twice leaves the store as logging out once. */
  lemma LogoutIdempotent(items: map<string, string>)
    ensures StoreAfterLogout(StoreAfterLogout(items)) == StoreAfterLogout(items)
  {
  }

  /** Logging in and then out leaves the store as logging out alone would: login leaves no trace. */
  lemma LoginThenLogout(items: map<string, string>, data: AuthResponse)
    ensures StoreAfterLogout(StoreAfterLogin(items, data)) == StoreAfterLogout(items)
  {
  }

  /** Hydration depends on `auth_user` alone, never on `auth_token`. */
  lemma HydrationIgnoresToken(items: map<string, string>, token: string)
    ensures HydrationOf(items[TokenKey := token]) == HydrationOf(items)
    ensures HydrationOf(items - {TokenKey}) == HydrationOf(items)
  {
    assert Lookup(items[TokenKey := token], UserKey) == Lookup(items, UserKey);
    assert Lookup(items - {TokenKey}, UserKey) == Lookup(items, UserKey);
  }

  /** Login and logout each leave the persisted session paired. */
  lemma SessionStaysPaired(items: map<string, string>, data: AuthResponse)
    ensures SessionPaired(StoreAfterLogin(items, data))
    ensures SessionPaired(StoreAfterLogout(items))
  {
  }

  /**
   * After login the profile request carries the new token as a bearer credential
   * (when it is non-empty); after logout it carries no credential at all.
   */
  lemma ProfileRequestFollowsSession(items: map<string, string>, data: AuthResponse)
    ensures var h := AuthService.ProfileRequest(StoreAfterLogin(items, data)).headers;
      ("Authorization" in h <==> data.accessToken != "")
      && ("Authorization" in h ==> h["Authorization"] == "Bearer " + data.accessToken)
    ensures "Authorization" !in AuthService.ProfileRequest(StoreAfterLogout(items)).headers
  {
  }

  /** Two providers over one store: the second one, mounted after a login, sees the logged-in user. */
  method ReloadAfterLoginScenario(storage: LocalStorage, data: AuthResponse) returns (reloaded: AuthProvider)
    modifies storage
    ensures fresh(reloaded) && reloaded.storage == storage
    ensures reloaded.user == Some(data.user)
    ensures storage.items == StoreAfterLogin(old(storage.items), data)
  {
    var provider := new AuthProvider(storage);
    var _ := provider.Hydrate();
    provider.Login(data);
    ReloadAfterLogin(old(storage.items), data);
    reloaded := new AuthProvider(storage);
    var _ := reloaded.Hydrate();
  }

  /** Login then logout, twice over: a provider mounted afterwards is anonymous. */
  method ReloadAfterLogoutScenario(storage: LocalStorage, data: AuthResponse) returns (reloaded: AuthProvider)
    modifies storage
    ensures fresh(reloaded) && reloaded.storage == storage
    ensures reloaded.user == None
    ensures storage.items == StoreAfterLogout(old(storage.items))
  {
    var provider := new AuthProvider(storage);
    provider.Login(data);
    provider.Logout();
    provider.Logout();
    LoginThenLogout(old(storage.items), data);
    LogoutIdempotent(old(storage.items));
    reloaded := new AuthProvider(storage);
    var _ := reloaded.Hydrate();
  }
}
