/**
  The server's authentication logic: the role gate that guards the
  thingamabob routes, and the login, logout and status handlers, with the
  session store's answers (a lookup error, a failed save or destroy) and the
  parsed request body passed in as values.
 */
module Auth {
  import opened Wrappers
  import opened Server

  datatype User = User(password: string, roles: seq<string>)

  /** The server's fixed user table. */
  const UsersDB: map<string, User> := map[
    "admin" := User("admin", ["admin", "user"]),
    "user" := User("user", ["user"])
  ]

  datatype Credentials = Credentials(username: string, password: string)

  /** contains: a linear search with an early return on the first equal element. */
  function Contains(slice: seq<string>, item: string): (found: bool)
    ensures found <==> item in slice
  {
    if |slice| == 0 then false
    else if slice[0] == item then true
    else Contains(slice[1..], item)
  }

  /** The gate's loop over the required roles, which stops at the first one the user holds. */
  function HoldsAnyRole(userRoles: seq<string>, required: seq<string>): (held: bool)
    ensures held <==> exists role :: role in required && role in userRoles
  {
    if |required| == 0 then false
    else if Contains(userRoles, required[0]) then true
    else HoldsAnyRole(userRoles, required[1..])
  }

  /** What requireAuth does with a request: hand it to the next handler, or answer with a status. */
  datatype Gate = Next | Reject(status: int)

  /**
    requireAuth(store, required...): a session lookup error answers 500; a
    session whose "loggedIn" is not the boolean true answers 401; with no
    required roles any logged-in session passes; otherwise the session's
    "roles" must be a string list holding at least one of the required roles,
    or the answer is 401.
   */
  function RequireAuth(storeErr: bool, sess: SessionData, required: seq<string>): (g: Gate)
    ensures storeErr ==> g == Reject(StatusInternalServerError)
    ensures !storeErr && !IsLoggedIn(sess) ==> g == Reject(StatusUnauthorized)
    ensures !storeErr && IsLoggedIn(sess) && |required| == 0 ==> g == Next
    ensures !storeErr && |required| > 0 ==>
      (g == Next <==>
        && IsLoggedIn(sess)
        && Get(sess, "roles").StrListVal?
        && exists role :: role in required && role in Get(sess, "roles").list)
    ensures g.Reject? ==> g.status in {StatusInternalServerError, StatusUnauthorized}
  {
    if storeErr then Reject(StatusInternalServerError)
    else if !IsLoggedIn(sess) then Reject(StatusUnauthorized)
    else if |required| > 0 then
      var matched := match Get(sess, "roles")
        case StrListVal(userRoles) => HoldsAnyRole(userRoles, required)
        case _ => false;
      if matched then Next else Reject(StatusUnauthorized)
    else Next
  }

  /** A stored "roles" value that is not a string list never passes a role check. */
  lemma MalformedRolesRejected(sess: SessionData, required: seq<string>)
    requires |required| > 0 && !Get(sess, "roles").StrListVal?
    ensures RequireAuth(false, sess, required) == Reject(StatusUnauthorized)
  {
  }

  /** A handler's answer together with the session as the store holds it afterwards. */
  datatype Handled = Handled(response: Response, session: SessionData)

  predicate ValidCredentials(users: map<string, User>, c: Credentials)
  {
    c.username in users && users[c.username].password == c.password
  }

  /**
    handleLogin: 500 when the session cannot be looked up, 400 when the body
    does not parse; with a known username and its password the session gets
    loggedIn, username and roles and, once saved, the answer carries them
    (500 when saving fails); any other credentials get 401 {"loggedIn": false}
    and leave the session as it was, even a logged-in one.
   */
  function HandleLogin(storeErr: bool, sess: SessionData, body: Option<Credentials>,
                       saveOk: bool, users: map<string, User>): (h: Handled)
    ensures storeErr ==> h == Handled(Response(StatusInternalServerError, StatusText), sess)
    ensures !storeErr && body.None? ==> h == Handled(Response(StatusBadRequest, StatusText), sess)
    ensures !storeErr && body.Some? && ValidCredentials(users, body.value) && saveOk ==>
      var name := body.value.username;
      && h.response == Response(StatusOK, LoggedIn(StrVal(name), StrListVal(users[name].roles)))
      && h.session == sess["loggedIn" := BoolVal(true)]["username" := StrVal(name)]
                          ["roles" := StrListVal(users[name].roles)]
    ensures !storeErr && body.Some? && ValidCredentials(users, body.value) && !saveOk ==>
      h == Handled(Response(StatusInternalServerError, StatusText), sess)
    ensures !storeErr && body.Some? && !ValidCredentials(users, body.value) ==>
      h == Handled(Response(StatusUnauthorized, LoggedOut), sess)
    ensures h.response.status == StatusOK <==>
      !storeErr && body.Some? && ValidCredentials(users, body.value) && saveOk
  {
    if storeErr then Handled(Response(StatusInternalServerError, StatusText), sess)
    else if body.None? then Handled(Response(StatusBadRequest, StatusText), sess)
    else
      var c := body.value;
      if c.username in users && users[c.username].password == c.password then
        var roles := users[c.username].roles;
        var updated := sess["loggedIn" := BoolVal(true)]["username" := StrVal(c.username)]["roles" := StrListVal(roles)];
        if saveOk then Handled(Response(StatusOK, LoggedIn(StrVal(c.username), StrListVal(roles))), updated)
        else Handled(Response(StatusInternalServerError, StatusText), sess)
      else Handled(Response(StatusUnauthorized, LoggedOut), sess)
  }

  /**
    handleLogout: 500 when the session cannot be looked up or destroyed;
    otherwise the session is emptied and the answer is 200 {"loggedIn": false}.
   */
  function HandleLogout(storeErr: bool, sess: SessionData, destroyOk: bool): (h: Handled)
    ensures h.response.status == StatusOK <==> !storeErr && destroyOk
    ensures h.response.status == StatusOK ==> h.response.body == LoggedOut && h.session == map[]
    ensures h.response.status != StatusOK ==>
      h == Handled(Response(StatusInternalServerError, StatusText), sess)
  {
    if storeErr || !destroyOk then Handled(Response(StatusInternalServerError, StatusText), sess)
    else Handled(Response(StatusOK, LoggedOut), map[])
  }

  /**
    handleAuthStatus: 500 when the session cannot be looked up; otherwise 200
    with {"loggedIn": false} unless "loggedIn" holds the boolean true, in
    which case the stored username and roles are passed through as they are.
   */
  function HandleAuthStatus(storeErr: bool, sess: SessionData): (r: Response)
    ensures storeErr <==> r.status == StatusInternalServerError
    ensures !storeErr ==> r.status == StatusOK
    ensures !storeErr && !IsLoggedIn(sess) ==> r.body == LoggedOut
    ensures !storeErr && IsLoggedIn(sess) ==> r.body == LoggedIn(Get(sess, "username"), Get(sess, "roles"))
  {
    if storeErr then Response(StatusInternalServerError, StatusText)
    else if !IsLoggedIn(sess) then Response(StatusOK, LoggedOut)
    else Response(StatusOK, LoggedIn(Get(sess, "username"), Get(sess, "roles")))
  }

  /** The status endpoint reports a session as logged in exactly when the role-free gate lets it through. */
  lemma StatusAgreesWithGate(sess: SessionData)
    ensures HandleAuthStatus(false, sess).body.LoggedIn? <==> RequireAuth(false, sess, []) == Next
  {
  }

  /**
    After a successful login the status endpoint reports the user's name and
    exactly that user's roles, and an "admin"-only route lets the session
    through exactly when those roles include "admin".
   */
  lemma LoginThenStatus(sess: SessionData, c: Credentials, users: map<string, User>)
    requires ValidCredentials(users, c)
    ensures var after := HandleLogin(false, sess, Some(c), true, users).session;
      && HandleAuthStatus(false, after) == Response(StatusOK, LoggedIn(StrVal(c.username), StrListVal(users[c.username].roles)))
      && (RequireAuth(false, after, ["admin"]) == Next <==> "admin" in users[c.username].roles)
  {
  }

  /** A destroyed session no longer passes the gate. */
  lemma LogoutLocksOut(sess: SessionData, required: seq<string>)
    ensures RequireAuth(false, HandleLogout(false, sess, true).session, required) == Reject(StatusUnauthorized)
  {
  }

  /** Of the two fixed users only "admin" may create, update or delete thingamabobs; both may read them. */
  lemma FixedUsersRoles(sess: SessionData)
    ensures var admin := HandleLogin(false, sess, Some(Credentials("admin", "admin")), true, UsersDB).session;
      var user := HandleLogin(false, sess, Some(Credentials("user", "user")), true, UsersDB).session;
      && RequireAuth(false, admin, ["admin"]) == Next
      && RequireAuth(false, admin, []) == Next
      && RequireAuth(false, user, ["admin"]) == Reject(StatusUnauthorized)
      && RequireAuth(false, user, []) == Next
  {
  }
}
