/** The persisted session store (`useAuthStore`) together with the browser's
    key/value storage it writes to. */
module AuthStore {
  import opened Wrappers
  import opened AuthTypes

  /** The three storage keys the build configures: the access token, the
      refresh token, and the entry the persist middleware writes the store to. */
  datatype StorageKeys = StorageKeys(access: string, refresh: string, auth: string)
  {
    predicate Distinct() {
      access != refresh && access != auth && refresh != auth
    }
  }

  /** A storage entry: a plain string (a token), or the store's persisted
      copy of its session (its serialisation is abstracted away). */
  datatype Entry = Text(text: string) | Persisted(session: Option<Auth>)

  /** The session a reload restores from the storage: the persisted copy
      when there is one, otherwise the initial null. */
  function Rehydrate(storage: map<string, Entry>, keys: StorageKeys): (session: Option<Auth>)
    ensures keys.auth !in storage ==> session == None
    ensures keys.auth in storage && storage[keys.auth].Persisted? ==> session == storage[keys.auth].session
  {
    if keys.auth in storage && storage[keys.auth].Persisted? then storage[keys.auth].session else None
  }

  /** The storage after the persist middleware has written `session`. */
  function Persist(storage: map<string, Entry>, keys: StorageKeys, session: Option<Auth>): (r: map<string, Entry>)
    ensures r.Keys == storage.Keys + {keys.auth}
    ensures r[keys.auth] == Persisted(session) && Rehydrate(r, keys) == session
    ensures forall k :: k in storage && k != keys.auth ==> r[k] == storage[k]
  {
    storage[keys.auth := Persisted(session)]
  }

  /** The storage after `logout`: the session persisted as null and the
      access-token entry removed; every other entry, the refresh token
      included, is kept. */
  function LoggedOutStorage(storage: map<string, Entry>, keys: StorageKeys): (r: map<string, Entry>)
    requires keys.Distinct()
    ensures r.Keys == (storage.Keys + {keys.auth}) - {keys.access}
    ensures r[keys.auth] == Persisted(None) && Rehydrate(r, keys) == None
    ensures forall k :: k in storage && k != keys.auth && k != keys.access ==> r[k] == storage[k]
  {
    Persist(storage, keys, None) - {keys.access}
  }

  /** The storage after a sign-in screen has stored session `a` and written
      both of its tokens. */
  function SignedInStorage(storage: map<string, Entry>, keys: StorageKeys, a: Auth): (r: map<string, Entry>)
    requires keys.Distinct()
    ensures r.Keys == storage.Keys + {keys.auth, keys.access, keys.refresh}
    ensures Rehydrate(r, keys) == Some(a)
    ensures r[keys.access] == Text(a.accessToken) && r[keys.refresh] == Text(a.refreshToken)
    ensures forall k :: k in storage && k !in {keys.auth, keys.access, keys.refresh} ==> r[k] == storage[k]
  {
    Persist(storage, keys, Some(a))[keys.access := Text(a.accessToken)][keys.refresh := Text(a.refreshToken)]
  }

  /** Logging out twice leaves the storage as logging out once. */
  lemma LogoutIdempotent(storage: map<string, Entry>, keys: StorageKeys)
    requires keys.Distinct()
    ensures LoggedOutStorage(LoggedOutStorage(storage, keys), keys) == LoggedOutStorage(storage, keys)
  {
  }

  class Store {
    const keys: StorageKeys
    /** The current session, `null` when signed out. */
    var auth: Option<Auth>
    /** The browser's storage (`localStorage`). */
    var storage: map<string, Entry>

    /** The keys are distinct and a reload would restore exactly `auth`
        from the persisted entry. */
    ghost predicate Valid()
      reads this
    {
      keys.Distinct() && Rehydrate(storage, keys) == auth
    }

    /** Creating the store: the session starts as null and is then
        rehydrated from the persisted entry, if the storage holds one. */
    constructor (keys: StorageKeys, storage: map<string, Entry>)
      requires keys.Distinct()
      ensures Valid()
      ensures this.keys == keys && this.storage == storage
      ensures auth == Rehydrate(storage, keys)
      ensures keys.auth !in storage ==> auth == None
    {
      this.keys := keys;
      this.storage := storage;
      auth := None;
      auth := Rehydrate(storage, keys);
    }

    /** `update(auth)`: the session becomes the argument as a whole; only
        the persisted entry changes, the token entries are untouched. The
        argument is `None` when a caller's unchecked cast lets `undefined`
        through: the persist middleware then drops the field, and a reload
        restores the initial null. */
    method Update(session: Option<Auth>)
      requires Valid()
      modifies this
      ensures Valid()
      ensures auth == session
      ensures storage == Persist(old(storage), keys, session)
      ensures forall k :: k in old(storage) && k != keys.auth ==> k in storage && storage[k] == old(storage)[k]
    {
      auth := session;
      storage := Persist(storage, keys, auth);
    }

    /** `logout()`: the session becomes null (and is persisted so), then the
        access-token entry is removed. */
    method Logout()
      requires Valid()
      modifies this
      ensures Valid()
      ensures auth == None
      ensures storage == LoggedOutStorage(old(storage), keys)
      ensures keys.access !in storage
      ensures keys.refresh in old(storage) ==> keys.refresh in storage && storage[keys.refresh] == old(storage)[keys.refresh]
    {
      auth := None;
      storage := Persist(storage, keys, auth);
      storage := storage - {keys.access};
    }

    /** `localStorage.setItem(key, value)` for one of the token keys. */
    method SetItem(key: string, value: string)
      requires Valid() && key != keys.auth
      modifies this`storage
      ensures Valid()
      ensures storage == old(storage)[key := Text(value)]
    {
      storage := storage[key := Text(value)];
    }
  }

  /** Two logouts in a row leave the same state as one. */
  method LogoutTwice(s: Store)
    requires s.Valid()
    modifies s
    ensures s.Valid() && s.auth == None
    ensures s.storage == LoggedOutStorage(old(s.storage), s.keys)
  {
    s.Logout();
    s.Logout();
    LogoutIdempotent(old(s.storage), s.keys);
  }
}
