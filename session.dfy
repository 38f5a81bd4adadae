/**
 The user context: a placeholder login kept in the browser's durable
 key-value storage under three keys, restored when the context starts, written
 by login, cleared by logout, and an admin flag derived from the user name.
 */
module Session {

  /** The durable key-value storage (`localStorage`): string keys to string values. */
  type Storage = map<string, string>

  const TokenKey: string := "authToken"
  const NameKey: string := "authNombre"
  const EmailKey: string := "authEmail"

  /** The three keys this context owns. */
  const AuthKeys: set<string> := {TokenKey, NameKey, EmailKey}

  /** Prefix of the placeholder token written at login. */
  const TokenPrefix: string := "fake-token-"

  /** The name whose holder may edit and delete products. */
  const AdminName: string := "admin"

  /** The in-memory user (`usuario`). */
  datatype User = User(nombre: string, email: string)

  /** `getItem(key) || ""`: the stored value, or "" when the key is absent. */
  function ItemOrEmpty(store: Storage, key: string): string {
    if key in store then store[key] else ""
  }

  /** The user the context starts with, read from storage. */
  function RestoreUser(store: Storage): User {
    User(ItemOrEmpty(store, NameKey), ItemOrEmpty(store, EmailKey))
  }

  /** The authentication flag the context starts with: the token is truthy,
      that is, present and non-empty. */
  predicate RestoreAuthenticated(store: Storage) {
    TokenKey in store && store[TokenKey] != ""
  }

  /** `esAdmin`: exact, case-sensitive equality of the user name with "admin". */
  predicate IsAdminUser(u: User) {
    u.nombre == AdminName
  }

  /** The storage after `iniciarSesion(nombre, email)`. */
  function LoginStore(store: Storage, nombre: string, email: string): (r: Storage)
    ensures r.Keys == store.Keys + AuthKeys
    ensures r[TokenKey] == TokenPrefix + nombre && r[NameKey] == nombre && r[EmailKey] == email
    ensures forall k :: k in store && k !in AuthKeys ==> r[k] == store[k]
  {
    store[TokenKey := TokenPrefix + nombre][NameKey := nombre][EmailKey := email]
  }

  /** The storage after `cerrarSesion()`. */
  function LogoutStore(store: Storage): (r: Storage)
    ensures r.Keys == store.Keys - AuthKeys
    ensures forall k :: k in r ==> r[k] == store[k]
  {
    store - AuthKeys
  }

  /** Restoring from storage without the three keys gives the empty, unauthenticated user. */
  lemma RestoreDefaults(store: Storage)
    requires NameKey !in store && EmailKey !in store && TokenKey !in store
    ensures RestoreUser(store) == User("", "")
    ensures !RestoreAuthenticated(store)
  {
  }

  /** Reloading after a login restores the user that logged in, authenticated,
      since the token always carries its non-empty prefix. */
  lemma LoginRestoreRoundTrip(store: Storage, nombre: string, email: string)
    ensures RestoreUser(LoginStore(store, nombre, email)) == User(nombre, email)
    ensures RestoreAuthenticated(LoginStore(store, nombre, email))
  {
  }

  /** Reloading after a logout gives the empty, unauthenticated user. */
  lemma LogoutRestoreRoundTrip(store: Storage)
    ensures RestoreUser(LogoutStore(store)) == User("", "")
    ensures !RestoreAuthenticated(LogoutStore(store))
  {
  }

  /** Logging out twice leaves the storage as logging out once. */
  lemma LogoutIdempotent(store: Storage)
    ensures LogoutStore(LogoutStore(store)) == LogoutStore(store)
  {
  }

  /** A second login overwrites everything the first one wrote. */
  lemma LoginOverwrites(store: Storage, n1: string, e1: string, n2: string, e2: string)
    ensures LoginStore(LoginStore(store, n1, e1), n2, e2) == LoginStore(store, n2, e2)
  {
  }

  /** Logging out after a login gives the storage as logging out alone would. */
  lemma LogoutUndoesLogin(store: Storage, nombre: string, email: string)
    ensures LogoutStore(LoginStore(store, nombre, email)) == LogoutStore(store)
  {
  }

  /** A reloaded session is an admin session exactly when "admin" logged in last. */
  lemma AdminSurvivesReload(store: Storage, nombre: string, email: string)
    ensures IsAdminUser(RestoreUser(LoginStore(store, nombre, email))) <==> nombre == AdminName
    ensures !IsAdminUser(RestoreUser(LogoutStore(store)))
  {
  }

  /** The user context (`UserProvider`): the storage it writes through, and
      the in-memory user and authentication flag. */
  class UserSession {
    var storage: Storage
    var usuario: User
    var isAuthenticated: bool

    /** The in-memory state is what a reload would restore from the storage.
        The storage is written only through this context, so a reload after
        any login or logout observes the same session. */
    ghost predicate Valid()
      reads this
    {
      usuario == RestoreUser(storage) && isAuthenticated == RestoreAuthenticated(storage)
    }

    /** The lazy state initialisers: read the user and the flag from storage. */
    constructor (store: Storage)
      ensures Valid()
      ensures storage == store
      ensures usuario == User(ItemOrEmpty(store, NameKey), ItemOrEmpty(store, EmailKey))
      ensures isAuthenticated <==> TokenKey in store && store[TokenKey] != ""
    {
      storage := store;
      var nombre := if NameKey in store then store[NameKey] else "";
      var email := if EmailKey in store then store[EmailKey] else "";
      usuario := User(nombre, email);
      isAuthenticated := TokenKey in store && store[TokenKey] != "";
    }

    /** `esAdmin`. */
    predicate IsAdmin()
      reads this
    {
      IsAdminUser(usuario)
    }

    /** `iniciarSesion(nombre, email = "")`: mark the session authenticated,
        write the token, name and email, and set the in-memory user. */
    method Login(nombre: string, email: string := "")
      requires Valid()
      modifies this
      ensures Valid()
      ensures storage == LoginStore(old(storage), nombre, email)
      ensures usuario == User(nombre, email) && isAuthenticated
      ensures IsAdmin() <==> nombre == AdminName
    {
      isAuthenticated := true;
      storage := storage[TokenKey := TokenPrefix + nombre];
      storage := storage[NameKey := nombre];
      storage := storage[EmailKey := email];
      usuario := User(nombre, email);
      LoginRestoreRoundTrip(old(storage), nombre, email);
    }

    /** `cerrarSesion()`: mark the session unauthenticated, remove the three
        keys, and reset the in-memory user. */
    method Logout()
      requires Valid()
      modifies this
      ensures Valid()
      ensures storage == LogoutStore(old(storage))
      ensures usuario == User("", "") && !isAuthenticated && !IsAdmin()
    {
      isAuthenticated := false;
      storage := storage - {TokenKey};
      storage := storage - {NameKey};
      storage := storage - {EmailKey};
      usuario := User("", "");
      assert storage == LogoutStore(old(storage));
      LogoutRestoreRoundTrip(old(storage));
    }
  }
}
