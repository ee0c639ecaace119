/**
 * The session store of the client (src/context/AuthContext.jsx): the
 * logged-in user held in memory, mirrored in the browser's key/value
 * storage under the keys "token" and "user".
 *
 * `JSON.stringify` and `JSON.parse` are parameters: `serialize` turns a
 * user record into text, `parse` reads text back and is `None` where
 * `JSON.parse` throws.
 */
module AuthContext {
  import opened Client

  const TokenKey := "token"
  const UserKey := "user"

  datatype Department = Department(code: string, name: string, batch: string)

  /** The permission flags as the server sends them; either may be absent. */
  datatype BackendPermissions = BackendPermissions(canBookLabs: Option<bool>, canBookAuditorium: Option<bool>)

  /** `data.user` of a login response, in the server's field names. */
  datatype BackendUser = BackendUser(
    id: string,                 // _id
    fullName: string,           // full_name
    email: string,
    phone: string,
    role: string,
    department: Department,
    isActive: bool,             // is_active
    permissions: Option<BackendPermissions>)

  datatype Permissions = Permissions(canBookLabs: bool, canBookAuditorium: bool)

  /** The user record the client keeps and stores. */
  datatype UserData = UserData(
    id: string,
    fullName: string,
    email: string,
    phone: string,
    role: string,
    department: Department,
    isActive: bool,
    permissions: Permissions)

  /** The body of a reply to POST /auth/login; `user` may be missing. */
  datatype LoginBody = LoginBody(token: string, user: Option<BackendUser>)

  /** `localStorage.getItem(key)`, `None` standing for `null`. */
  function GetItem(store: map<string, string>, key: string): Option<string> {
    if key in store then Some(store[key]) else None
  }

  /** The value of `localStorage.getItem(key)` is truthy. */
  predicate HasItem(store: map<string, string>, key: string) {
    key in store && store[key] != ""
  }

  /** `permissions?.<flag> || false`. */
  function FlagOrFalse(flag: Option<bool>): (b: bool)
    ensures b <==> flag == Some(true)
  {
    match flag
    case Some(f) => f
    case None => false
  }

  /** The response-to-record mapping of `login`: `_id`, `full_name` and
      `is_active` are renamed, the other fields copied, and each permission
      flag is true only when the server sent it as true. */
  function ToUserData(b: BackendUser): (u: UserData)
    ensures u.id == b.id && u.fullName == b.fullName && u.isActive == b.isActive
    ensures u.email == b.email && u.phone == b.phone && u.role == b.role && u.department == b.department
    ensures u.permissions.canBookLabs <==> b.permissions.Some? && b.permissions.value.canBookLabs == Some(true)
    ensures u.permissions.canBookAuditorium <==> b.permissions.Some? && b.permissions.value.canBookAuditorium == Some(true)
  {
    var p := match b.permissions
      case Some(bp) => Permissions(FlagOrFalse(bp.canBookLabs), FlagOrFalse(bp.canBookAuditorium))
      case None => Permissions(false, false);
    UserData(b.id, b.fullName, b.email, b.phone, b.role, b.department, b.isActive, p)
  }

  /** The store and user after the startup check. */
  datatype Session = Session(store: map<string, string>, user: Option<UserData>)

  /** The startup check on a store, with `user` the value before it. */
  function Startup(store: map<string, string>, user: Option<UserData>, parse: string -> Option<UserData>): Session
  {
    if HasItem(store, UserKey) && HasItem(store, TokenKey) then
      match parse(store[UserKey])
      case Some(u) => Session(store, Some(u))
      case None => Session(store - {UserKey, TokenKey}, user)
    else Session(store, user)
  }

  /** The user is taken from storage only when both keys hold non-empty
      text and the stored user parses. */
  lemma StartupRestoresOnlyWithBoth(store: map<string, string>, user: Option<UserData>, parse: string -> Option<UserData>)
    ensures Startup(store, user, parse).user != user ==>
      HasItem(store, UserKey) && HasItem(store, TokenKey) && Startup(store, user, parse).user == parse(store[UserKey])
    ensures Startup(store, user, parse).store != store ==>
      HasItem(store, UserKey) && HasItem(store, TokenKey) && parse(store[UserKey]).None?
  {
  }

  /** A stored user that fails to parse removes both keys, keeps every
      other key, and leaves the user as it was. */
  lemma StartupDropsUnparsable(store: map<string, string>, user: Option<UserData>, parse: string -> Option<UserData>)
    requires HasItem(store, UserKey) && HasItem(store, TokenKey) && parse(store[UserKey]).None?
    ensures UserKey !in Startup(store, user, parse).store && TokenKey !in Startup(store, user, parse).store
    ensures forall k :: k in store && k != UserKey && k != TokenKey ==>
      k in Startup(store, user, parse).store && Startup(store, user, parse).store[k] == store[k]
    ensures Startup(store, user, parse).user == user
  {
  }

  /** The store after a successful login. */
  function LoggedIn(store: map<string, string>, token: string, u: UserData, serialize: UserData -> string): map<string, string>
  {
    store[TokenKey := token][UserKey := serialize(u)]
  }

  /** The store after logout: both session keys are gone, all others stay. */
  function LoggedOut(store: map<string, string>): (r: map<string, string>)
    ensures r.Keys == store.Keys - {TokenKey, UserKey}
    ensures forall k :: k in r ==> r[k] == store[k]
  {
    store - {TokenKey, UserKey}
  }

  /** Logging out twice leaves the same store as logging out once. */
  lemma LogoutIdempotent(store: map<string, string>)
    ensures LoggedOut(LoggedOut(store)) == LoggedOut(store)
  {
  }

  /** After a successful login, a fresh start of the client on the same
      store restores the same user, provided the serialised record parses
      back to itself and the token is not empty. */
  lemma LoginThenRestart(store: map<string, string>, token: string, b: BackendUser,
                         serialize: UserData -> string, parse: string -> Option<UserData>)
    requires token != "" && serialize(ToUserData(b)) != ""
    requires parse(serialize(ToUserData(b))) == Some(ToUserData(b))
    ensures Startup(LoggedIn(store, token, ToUserData(b), serialize), None, parse)
         == Session(LoggedIn(store, token, ToUserData(b), serialize), Some(ToUserData(b)))
  {
    var s := LoggedIn(store, token, ToUserData(b), serialize);
    assert s[UserKey] == serialize(ToUserData(b));
    assert s[TokenKey] == token;
  }

  /** A successful login whose token is empty is forgotten at the next start. */
  lemma EmptyTokenNotRestored(store: map<string, string>, b: BackendUser,
                              serialize: UserData -> string, parse: string -> Option<UserData>)
    ensures Startup(LoggedIn(store, "", ToUserData(b), serialize), None, parse).user == None
  {
    assert LoggedIn(store, "", ToUserData(b), serialize)[TokenKey] == "";
  }

  /** The provider's state: `user`, `loading` and the browser storage. */
  class AuthProvider {
    var store: map<string, string>
    var user: Option<UserData>
    var loading: bool
    var events: seq<Event>

    /** Mounting: no user yet and still loading. */
    constructor (initialStore: map<string, string>)
      ensures store == initialStore && user == None && loading && events == []
    {
      store := initialStore;
      user := None;
      loading := true;
      events := [];
    }

    /** The startup effect: restore the user from storage, then stop loading. */
    method RestoreSession(parse: string -> Option<UserData>)
      modifies this
      ensures store == Startup(old(store), old(user), parse).store
      ensures user == Startup(old(store), old(user), parse).user
      ensures !loading && events == old(events)
    {
      var storedUser := GetItem(store, UserKey);
      var token := GetItem(store, TokenKey);
      if storedUser.Some? && storedUser.value != "" && token.Some? && token.value != "" {
        var parsed := parse(storedUser.value);
        if parsed.Some? {
          user := parsed;
        } else {
          store := store - {UserKey};
          store := store - {TokenKey};
        }
      }
      loading := false;
    }

    /** `login`: POST /auth/login. On a reply carrying a user, store the token
        and the serialised record, set the user and report true; otherwise
        toast the server's message (or "Login failed") and report false,
        leaving storage and user alone. */
    method Login(response: Outcome<LoginBody>, serialize: UserData -> string) returns (ok: bool)
      modifies this
      ensures ok <==> response.Reply? && response.body.user.Some?
      ensures ok ==>
        var u := ToUserData(response.body.user.value);
        && store == LoggedIn(old(store), response.body.token, u, serialize)
        && user == Some(u)
        && events == old(events) + [Request("POST", "/auth/login"), Toast(Success, "Welcome back, " + u.fullName + "!")]
      ensures !ok ==>
        && store == old(store) && user == old(user)
        && events == old(events) + [Request("POST", "/auth/login"),
             Toast(Error, if response.Failure? then MessageOr(response.error, "Login failed") else "Login failed")]
      ensures loading == old(loading)
    {
      events := events + [Request("POST", "/auth/login")];
      if response.Reply? && response.body.user.Some? {
        var userData := ToUserData(response.body.user.value);
        store := store[TokenKey := response.body.token];
        store := store[UserKey := serialize(userData)];
        user := Some(userData);
        events := events + [Toast(Success, "Welcome back, " + userData.fullName + "!")];
        ok := true;
      } else {
        // a reply without `data.user` throws a TypeError, which has no `response`
        var message := if response.Failure? then MessageOr(response.error, "Login failed") else "Login failed";
        events := events + [Toast(Error, message)];
        ok := false;
      }
    }

    /** `logout`: remove both keys, forget the user, go to /login. */
    method Logout()
      modifies this
      ensures store == LoggedOut(old(store)) && user == None && loading == old(loading)
      ensures events == old(events) + [Toast(Success, "Logged out successfully"), LocationAssigned("/login")]
    {
      store := store - {TokenKey};
      store := store - {UserKey};
      user := None;
      events := events + [Toast(Success, "Logged out successfully"), LocationAssigned("/login")];
    }
  }
}
