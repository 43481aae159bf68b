/**
 * The mock `auth` object of the local variant: sign-in state is the presence of
 * the "user" key. A `null` store stands for running outside a browser, where
 * there is no window object; logging in and signing up do not make that check
 * and write the store directly, so they take a store that exists.
 */
module Auth {
  import opened Wrappers
  import opened Storage

  /** Someone is signed in: the store exists and holds a user. */
  function IsLoggedIn(store: LocalStorage?): (r: bool)
    reads store
    ensures r ==> store != null
    ensures store != null ==> (r <==> store.user.Some?)
  {
    store != null && store.user.Some?
  }

  /** The signed-in user: the stored record, or nothing when there is none or no browser. */
  function GetUser(store: LocalStorage?): (r: Option<User>)
    reads store
    ensures r.None? <==> !IsLoggedIn(store)
    ensures r.Some? ==> store != null && store.user == r
  {
    if store == null then None else store.user
  }

  /** Logging in with an email and a password; `now` is the current time, which becomes the user id. */
  method Login(store: LocalStorage, email: string, password: string, now: int) returns (ok: bool)
    modifies store`user
    ensures ok <==> email != "" && password != ""
    ensures ok ==> store.user == Some(User(None, email, now)) && IsLoggedIn(store)
    ensures !ok ==> store.user == old(store.user)
  {
    if email != "" && password != "" {
      store.user := Some(User(None, email, now));
      ok := true;
    } else {
      ok := false;
    }
  }

  /** Logging out drops the "user" key (the redirect to "/" is not modelled). */
  method Logout(store: LocalStorage?)
    modifies store
    ensures !IsLoggedIn(store)
    ensures store != null ==> store.user == None
    ensures store != null ==> store.bookings == old(store.bookings) && store.adminUser == old(store.adminUser)
  {
    if store != null {
      store.user := None;
    }
  }

  /** Signing up with a full name, an email and a password. */
  method Signup(store: LocalStorage, fullName: string, email: string, password: string, now: int)
    returns (ok: bool)
    modifies store`user
    ensures ok <==> fullName != "" && email != "" && password != ""
    ensures ok ==> store.user == Some(User(Some(fullName), email, now)) && IsLoggedIn(store)
    ensures !ok ==> store.user == old(store.user)
  {
    if fullName != "" && email != "" && password != "" {
      store.user := Some(User(Some(fullName), email, now));
      ok := true;
    } else {
      ok := false;
    }
  }
}
