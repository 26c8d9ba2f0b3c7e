/** The persisted session store (src/stores/authStore.ts). `storage` is the browser's
    localStorage apart from the middleware's own entry: the store mirrors the token
    there under "authToken". `persisted` is the "auth-storage" entry that the `persist`
    middleware writes after every `set` (its JSON encoding is abstracted) and reads
    back when a page load hydrates a new store. */
module AuthStore {
  import opened Wrappers
  import opened Domain
  import Js
  import Api

  /** The part of the state the middleware persists. */
  datatype PersistedAuth = PersistedAuth(token: Option<string>, user: Option<User>, isAuthenticated: bool)

  class Store {
    var user: Option<User>
    var token: Option<string>
    var isAuthenticated: bool
    var storage: map<string, string>
    var persisted: Option<PersistedAuth>

    /** `isAuthenticated` agrees with having both a user and a truthy token. */
    predicate Consistent()
      reads this
    {
      isAuthenticated == (user.Some? && Js.Truthy(token))
    }

    /** The stored "authToken" is the token when it is truthy, and absent otherwise. */
    predicate Mirrored()
      reads this
    {
      if Js.Truthy(token) then Js.GetItem(storage, Api.AuthTokenKey) == token
      else Api.AuthTokenKey !in storage
    }

    /** The "auth-storage" entry holds the current state as `partialize` selects it. */
    predicate Saved()
      reads this
    {
      persisted == Some(Partialize())
    }

    /** A page load creates the store in its initial state; localStorage, including the
        middleware's entry, is whatever the browser already holds. */
    constructor (storage: map<string, string>, persisted: Option<PersistedAuth>)
      ensures user.None? && token.None? && !isAuthenticated
      ensures this.storage == storage && this.persisted == persisted
      ensures Consistent()
    {
      user := None;
      token := None;
      isAuthenticated := false;
      this.storage := storage;
      this.persisted := persisted;
    }

    /** `setUser`: authenticated exactly when a user is given; the token is not consulted. */
    method SetUser(u: Option<User>)
      modifies this
      ensures user == u && isAuthenticated == u.Some?
      ensures token == old(token) && storage == old(storage)
      ensures Saved()
    {
      user := u;
      isAuthenticated := u.Some?;
      persisted := Some(Partialize());
    }

    /** `setToken`: authenticated exactly when there is a user and the token is truthy;
        a truthy token is written to storage, anything else removes it. */
    method SetToken(t: Option<string>)
      modifies this
      ensures token == t && user == old(user)
      ensures isAuthenticated == (old(user).Some? && Js.Truthy(t))
      ensures Js.Truthy(t) ==> storage == old(storage)[Api.AuthTokenKey := t.value]
      ensures !Js.Truthy(t) ==> storage == old(storage) - {Api.AuthTokenKey}
      ensures Consistent() && Mirrored() && Saved()
    {
      token := t;
      isAuthenticated := user.Some? && Js.Truthy(t);
      persisted := Some(Partialize());
      if Js.Truthy(t) {
        storage := storage[Api.AuthTokenKey := t.value];
      } else {
        storage := storage - {Api.AuthTokenKey};
      }
    }

    /** `logout`. */
    method Logout()
      modifies this
      ensures user.None? && token.None? && !isAuthenticated
      ensures storage == old(storage) - {Api.AuthTokenKey}
      ensures persisted == Some(PersistedAuth(None, None, false))
      ensures Consistent() && Mirrored() && Saved()
    {
      storage := storage - {Api.AuthTokenKey};
      user := None;
      token := None;
      isAuthenticated := false;
      persisted := Some(Partialize());
    }

    /** `partialize`: exactly token, user and the flag. */
    function Partialize(): (p: PersistedAuth)
      reads this
      ensures p.token == token && p.user == user && p.isAuthenticated == isAuthenticated
    {
      PersistedAuth(token, user, isAuthenticated)
    }

    /** Hydration followed by `onRehydrateStorage`: the persisted entry, when there is
        one, is merged over the current state; the callback then runs on the merged
        state, writing a truthy token to storage and recomputing the flag. Hydration
        does not write the entry back. */
    method Rehydrate()
      modifies this
      ensures var src := if old(persisted).Some? then old(persisted).value
                         else PersistedAuth(old(token), old(user), old(isAuthenticated));
        && user == src.user && token == src.token
        && isAuthenticated == (src.user.Some? && Js.Truthy(src.token))
        && storage == (if Js.Truthy(src.token) then old(storage)[Api.AuthTokenKey := src.token.value]
                       else old(storage))
      ensures persisted == old(persisted)
      ensures Consistent()
    {
      if persisted.Some? {
        var p := persisted.value;
        user := p.user;
        token := p.token;
        isAuthenticated := p.isAuthenticated;
      }
      if Js.Truthy(token) {
        storage := storage[Api.AuthTokenKey := token.value];
      }
      isAuthenticated := user.Some? && Js.Truthy(token);
    }
  }

  /** A page load over the localStorage `s` left behind: a new store, hydrated. Whatever
      setter ran last, the session comes back with the same user and token, and with a
      flag recomputed from them. */
  method Reload(s: Store) returns (t: Store)
    requires s.Saved()
    ensures t.user == s.user && t.token == s.token
    ensures t.isAuthenticated == (s.user.Some? && Js.Truthy(s.token))
    ensures t.Consistent() && t.Saved() == s.Consistent()
    ensures t.persisted == s.persisted
  {
    t := new Store(s.storage, s.persisted);
    t.Rehydrate();
  }

  /** `setUser` alone can leave the store claiming a session that has no token. */
  method SetUserWithoutToken(u: User) returns (s: Store)
    ensures s.user == Some(u) && s.token.None? && s.isAuthenticated
    ensures !s.Consistent() && s.Saved()
  {
    s := new Store(map[], None);
    s.SetUser(Some(u));
  }

  /** The next page load repairs that flag, though the entry still claims a session. */
  method ReloadAfterSetUserWithoutToken(u: User) returns (t: Store)
    ensures t.user == Some(u) && t.token.None? && !t.isAuthenticated && t.Consistent()
    ensures t.persisted == Some(PersistedAuth(None, Some(u), true))
  {
    var s := SetUserWithoutToken(u);
    t := Reload(s);
  }

  /** Setting the user first and then the token restores consistency. */
  method SetUserThenToken(u: Option<User>, t: Option<string>, storage: map<string, string>) returns (s: Store)
    ensures s.user == u && s.token == t
    ensures s.isAuthenticated == (u.Some? && Js.Truthy(t))
    ensures s.Consistent() && s.Mirrored() && s.Saved()
  {
    s := new Store(storage, None);
    s.SetUser(u);
    s.SetToken(t);
  }
}
