/**
  What travels between the two halves: the JSON the Fiber handlers send and
  how the React client's fetch chains receive it. A response reaches a
  handler's success branch only with a 2xx status and a JSON body; a bare
  status (c.SendStatus answers with its status text) fails `response.json()`.
  The lemmas follow a login, a status check and a logout from the server's
  session through the wire to the page the client shows.
 */
module Protocol {
  import opened Wrappers
  import opened Server
  import opened Auth
  import opened JsValues
  import opened App

  /** encoding/json of a session value; a nil interface becomes null. */
  function EncodeValue(v: Value): (j: JsVal)
    ensures v.Nil? <==> j == Null
    ensures v.BoolVal? ==> j == Bool(v.b)
    ensures v.StrVal? ==> j == Str(v.s)
    ensures v.StrListVal? ==> j.Arr? && |j.items| == |v.list|
    ensures v.StrListVal? ==> forall i :: 0 <= i < |v.list| ==> j.items[i] == Str(v.list[i])
  {
    match v
    case Nil => Null
    case BoolVal(b) => Bool(b)
    case StrVal(s) => Str(s)
    case StrListVal(list) => Arr(seq(|list|, i requires 0 <= i < |list| => Str(list[i])))
  }

  /** Distinct session values are sent as distinct JSON. */
  lemma EncodeValueInjective(a: Value, b: Value)
    requires EncodeValue(a) == EncodeValue(b)
    ensures a == b
  {
    if a.StrListVal? && b.StrListVal? {
      assert |a.list| == |b.list|;
      forall i | 0 <= i < |a.list| ensures a.list[i] == b.list[i] {
        assert EncodeValue(a).items[i] == Str(a.list[i]);
        assert EncodeValue(b).items[i] == Str(b.list[i]);
      }
    }
  }

  function RowObject(r: Row): JsVal
  {
    Obj(map["id" := Num(r.id), "name" := Str(r.name)])
  }

  /** The JSON a handler writes, or None for a bare status. */
  function EncodeBody(b: Body): (j: Option<JsVal>)
    ensures j.None? <==> b.StatusText?
    ensures b.LoggedIn? ==>
      && Member(j.value, "loggedIn") == Some(Bool(true))
      && Member(j.value, "username") == Some(EncodeValue(b.username))
      && Member(j.value, "roles") == Some(EncodeValue(b.roles))
    ensures b.LoggedOut? ==>
      && Member(j.value, "loggedIn") == Some(Bool(false))
      && Member(j.value, "username") == Some(Undefined)
      && Member(j.value, "roles") == Some(Undefined)
    ensures b.Item? ==>
      Member(j.value, "id") == Some(Num(b.id)) && Member(j.value, "name") == Some(Str(b.name))
    ensures b.Items? ==>
      && j.value.Arr? && |j.value.items| == |b.rows|
      && forall i :: 0 <= i < |b.rows| ==>
           Member(j.value.items[i], "id") == Some(Num(b.rows[i].id))
           && Member(j.value.items[i], "name") == Some(Str(b.rows[i].name))
    ensures b.Message? ==> Member(j.value, "message") == Some(Str(b.text))
  {
    match b
    case StatusText => None
    case LoggedOut => Some(Obj(map["loggedIn" := Bool(false)]))
    case LoggedIn(username, roles) =>
      Some(Obj(map["loggedIn" := Bool(true), "username" := EncodeValue(username), "roles" := EncodeValue(roles)]))
    case Item(id, name) => Some(RowObject(Row(id, name)))
    case Items(rows) => Some(Arr(seq(|rows|, i requires 0 <= i < |rows| => RowObject(rows[i]))))
    case Message(text) => Some(Obj(map["message" := Str(text)]))
  }

  /** A response as a fetch chain receives it: `response.ok` and then `response.json()`. */
  function Deliver(r: Response): (f: Fetch)
    ensures f.Ok? <==> 200 <= r.status <= 299 && !r.body.StatusText?
    ensures f.Ok? ==> Some(f.data) == EncodeBody(r.body)
  {
    if 200 <= r.status <= 299 then
      match EncodeBody(r.body)
      case None => Fail
      case Some(data) => Ok(data)
    else Fail
  }

  /** The session the client holds for a logged-in user named `name` with `roles`. */
  function SignedIn(name: string, roles: seq<string>): Session
  {
    Session(Bool(true), Str(name), EncodeValue(StrListVal(roles)))
  }

  /**
    The login form clears its error and adopts the answer exactly when the
    server accepted the login; it then holds the user's name and roles and
    shows the authorized page. Any refusal (500, 400, 401) shows 'Login
    failed' and leaves the client's session as it was.
   */
  lemma LoginReachesClient(storeErr: bool, sess: SessionData, body: Option<Credentials>,
                           saveOk: bool, users: map<string, User>, s: Session)
    ensures var o := AfterLogin(s, Deliver(HandleLogin(storeErr, sess, body, saveOk, users).response));
      && (o.error.None? <==> !storeErr && body.Some? && ValidCredentials(users, body.value) && saveOk)
      && (o.error.None? ==>
            && o.session == SignedIn(body.value.username, users[body.value.username].roles)
            && ViewOf(o.session) == AuthorizedContent)
      && (o.error.Some? ==> o == LoginOutcome(s, Some("Login failed")))
  {
  }

  /**
    The page the client shows after a status check agrees with the server:
    the authorized page exactly when the session lookup worked and the
    session's "loggedIn" holds true. A logged-out session resets the client
    to its initial state.
   */
  lemma StatusReachesClient(storeErr: bool, sess: SessionData)
    ensures var t := AfterCheck(Deliver(HandleAuthStatus(storeErr, sess)));
      && (ViewOf(t) == AuthorizedContent <==> !storeErr && IsLoggedIn(sess))
      && (!(!storeErr && IsLoggedIn(sess)) ==> t == Initial)
      && (!storeErr && IsLoggedIn(sess) ==>
            t.username == Or(EncodeValue(Get(sess, "username")), Str(""))
            && t.userRoles == Or(EncodeValue(Get(sess, "roles")), Arr([])))
  {
  }

  /**
    A page reload after a successful login restores exactly the session the
    login handler gave the client: the status answer for the saved session
    reads back as the login answer did.
   */
  lemma ReloadAfterLogin(sess: SessionData, c: Credentials, users: map<string, User>, s: Session)
    requires ValidCredentials(users, c)
    ensures var h := HandleLogin(false, sess, Some(c), true, users);
      AfterCheck(Deliver(HandleAuthStatus(false, h.session)))
        == AfterLogin(s, Deliver(h.response)).session
        == SignedIn(c.username, users[c.username].roles)
  {
  }

  /**
    A logout the server carries out, followed by the status check the client
    then makes, returns the client to its initial state and the login page.
   */
  lemma LogoutReachesClient(sess: SessionData, s: Session)
    ensures var h := HandleLogout(false, sess, true);
      var t := AfterLogout(s, Deliver(h.response), Deliver(HandleAuthStatus(false, h.session)));
      t == Initial && ViewOf(t) == LoginPage
  {
  }

  /** A logout the server refuses leaves the client exactly as it was. */
  lemma FailedLogoutReachesClient(storeErr: bool, sess: SessionData, destroyOk: bool, statusRes: Fetch, s: Session)
    requires storeErr || !destroyOk
    ensures AfterLogout(s, Deliver(HandleLogout(storeErr, sess, destroyOk).response), statusRes) == s
  {
  }
}
