/**
  The React client's session state (App.js): `loggedIn`, `username` and
  `userRoles`, set from the answers of the status, login and logout calls,
  and which page the app shows. Each fetch chain is given its outcome as a
  value.
 */
module App {
  import opened Wrappers
  import opened JsValues

  /**
    One fetch as the `.then` chain sees it: the decoded body of an ok
    response, or Fail for a network error, a non-ok status or a body that is
    not JSON (each of which lands in the chain's `.catch`).
   */
  datatype Fetch = Fail | Ok(data: JsVal)

  /** The state App shares through UserContext. */
  datatype Session = Session(loggedIn: JsVal, username: JsVal, userRoles: JsVal)

  /** App's initial state, and what a failed status check resets to. */
  const Initial: Session := Session(Bool(false), Str(""), Arr([]))

  datatype View = AuthorizedContent | LoginPage

  /** `loggedIn ? <AuthorizedContent /> : <LoginPage />` */
  function ViewOf(s: Session): View
  {
    if Truthy(s.loggedIn) then AuthorizedContent else LoginPage
  }

  /**
    The success handler shared by checkAuthentication and the logout chain:
    loggedIn verbatim, `data.username || ''` and `data.roles || []`. None
    when `data` is null, where the first property read throws before any
    setter runs.
   */
  function FromStatus(data: JsVal): (r: Option<Session>)
    ensures r.None? <==> data == Undefined || data == Null
    ensures r.Some? ==> r.value.loggedIn == Member(data, "loggedIn").value
    ensures r.Some? && Truthy(Member(data, "username").value) ==> r.value.username == Member(data, "username").value
    ensures r.Some? && !Truthy(Member(data, "username").value) ==> r.value.username == Str("")
    ensures r.Some? && Truthy(Member(data, "roles").value) ==> r.value.userRoles == Member(data, "roles").value
    ensures r.Some? && !Truthy(Member(data, "roles").value) ==> r.value.userRoles == Arr([])
  {
    match Member(data, "loggedIn")
    case None => None
    case Some(loggedIn) =>
      Some(Session(loggedIn,
                   Or(Member(data, "username").value, Str("")),
                   Or(Member(data, "roles").value, Arr([]))))
  }

  /** An answer without username or roles gets '' and [] for them. */
  lemma AbsentFieldsDefault(fields: map<string, JsVal>)
    requires "username" !in fields && "roles" !in fields
    ensures var s := FromStatus(Obj(fields)).value;
      s.username == Str("") && s.userRoles == Arr([])
  {
  }

  /** The login success handler: loggedIn, username and roles taken as they are, with no defaults. */
  function FromLogin(data: JsVal): (r: Option<Session>)
    ensures r.None? <==> data == Undefined || data == Null
    ensures r.Some? ==> r.value == Session(Member(data, "loggedIn").value,
                                           Member(data, "username").value,
                                           Member(data, "roles").value)
  {
    match Member(data, "loggedIn")
    case None => None
    case Some(loggedIn) => Some(Session(loggedIn, Member(data, "username").value, Member(data, "roles").value))
  }

  /**
    checkAuthentication: every path sets all three fields, so the result does
    not depend on the state before. A failure of any kind resets to Initial.
   */
  function AfterCheck(res: Fetch): (t: Session)
    ensures res.Fail? ==> t == Initial
    ensures res.Ok? && FromStatus(res.data).None? ==> t == Initial
    ensures res.Ok? && FromStatus(res.data).Some? ==> t == FromStatus(res.data).value
    ensures Truthy(t.userRoles)
  {
    match res
    case Fail => Initial
    case Ok(data) =>
      match FromStatus(data)
      case None => Initial
      case Some(t) => t
  }

  /** The login form's result: the new session, and the error the form shows if it set one. */
  datatype LoginOutcome = LoginOutcome(session: Session, error: Option<string>)

  /**
    LoginPage.handleLogin: on failure the form's error becomes 'Login failed'
    and the session is left exactly as it was; on success the three fields are
    adopted from the answer and the error is not touched.
   */
  function AfterLogin(s: Session, res: Fetch): (o: LoginOutcome)
    ensures o.error.Some? <==> res.Fail? || FromLogin(res.data).None?
    ensures o.error.Some? ==> o == LoginOutcome(s, Some("Login failed"))
    ensures o.error.None? ==> o.session == FromLogin(res.data).value
  {
    match res
    case Fail => LoginOutcome(s, Some("Login failed"))
    case Ok(data) =>
      match FromLogin(data)
      case None => LoginOutcome(s, Some("Login failed"))
      case Some(t) => LoginOutcome(t, None)
  }

  /**
    AuthorizedContent.handleLogout: posts the logout and, only once that
    succeeds, asks for the status and applies it as checkAuthentication
    does. A failure at either step is only logged: the session stays as it
    was instead of being reset.
   */
  function AfterLogout(s: Session, logoutRes: Fetch, statusRes: Fetch): (t: Session)
    ensures logoutRes.Fail? ==> t == s
    ensures logoutRes.Ok? && (statusRes.Fail? || FromStatus(statusRes.data).None?) ==> t == s
    ensures logoutRes.Ok? && statusRes.Ok? && FromStatus(statusRes.data).Some? ==> t == AfterCheck(statusRes)
  {
    match logoutRes
    case Fail => s
    case Ok(_) =>
      match statusRes
      case Fail => s
      case Ok(data) =>
        match FromStatus(data)
        case None => s
        case Some(t) => t
  }

  /** A failed status check always leaves the login page showing, whatever was shown before. */
  lemma FailedCheckShowsLogin(res: Fetch)
    requires res.Fail? || FromStatus(res.data).None?
    ensures ViewOf(AfterCheck(res)) == LoginPage
  {
  }

  /** Unlike a failed status check, a failed logout keeps a logged-in user on the authorized page. */
  lemma FailedLogoutKeepsView(s: Session, statusRes: Fetch)
    ensures ViewOf(AfterLogout(s, Fail, statusRes)) == ViewOf(s)
  {
  }

  /**
    The App component. The setters a handler calls in one callback are
    applied together. LoginPage's own `error` state lives only while that page
    is mounted: it is gone when the app switches to the authorized page and
    starts as '' when the login page mounts again.
   */
  class AppState {
    var loggedIn: JsVal
    var username: JsVal
    var userRoles: JsVal
    /** LoginPage's `error`, or "" while LoginPage is not mounted. */
    var loginError: string

    function Current(): Session
      reads this
    {
      Session(loggedIn, username, userRoles)
    }

    function View(): View
      reads this
    {
      ViewOf(Current())
    }

    ghost predicate Valid()
      reads this
    {
      View() == AuthorizedContent ==> loginError == ""
    }

    constructor ()
      ensures Valid()
      ensures Current() == Initial && loginError == ""
      ensures View() == LoginPage
    {
      loggedIn, username, userRoles := Bool(false), Str(""), Arr([]);
      loginError := "";
    }

    /** Unmounts LoginPage, dropping its error, when the new state shows the authorized page. */
    method Rerender()
      modifies this`loginError
      ensures Valid()
      ensures loginError == if View() == AuthorizedContent then "" else old(loginError)
    {
      if Truthy(loggedIn) {
        loginError := "";
      }
    }

    /** checkAuthentication, called once when App mounts and again by any caller that wants the state refreshed. */
    method CheckAuthentication(res: Fetch)
      requires Valid()
      modifies this
      ensures Valid()
      ensures Current() == AfterCheck(res)
      ensures loginError == if View() == AuthorizedContent then "" else old(loginError)
    {
      match res {
        case Fail =>
          loggedIn, username, userRoles := Bool(false), Str(""), Arr([]);
        case Ok(data) =>
          match Member(data, "loggedIn") {
            case None =>
              loggedIn, username, userRoles := Bool(false), Str(""), Arr([]);
            case Some(v) =>
              loggedIn := v;
              username := Or(Member(data, "username").value, Str(""));
              userRoles := Or(Member(data, "roles").value, Arr([]));
          }
      }
      Rerender();
    }

    /** LoginPage.handleLogin. */
    method HandleLogin(res: Fetch)
      requires Valid()
      modifies this
      ensures Valid()
      ensures Current() == AfterLogin(old(Current()), res).session
      ensures loginError ==
        if View() == AuthorizedContent then ""
        else if AfterLogin(old(Current()), res).error.Some? then "Login failed"
        else old(loginError)
    {
      var failed := false;
      match res {
        case Fail =>
          failed := true;
        case Ok(data) =>
          match Member(data, "loggedIn") {
            case None =>
              failed := true;
            case Some(v) =>
              loggedIn := v;
              username := Member(data, "username").value;
              userRoles := Member(data, "roles").value;
          }
      }
      if failed {
        loginError := "Login failed";
      }
      Rerender();
    }

    /** AuthorizedContent.handleLogout; `statusRes` is consulted only when the logout call succeeded. */
    method HandleLogout(logoutRes: Fetch, statusRes: Fetch)
      requires Valid()
      modifies this
      ensures Valid()
      ensures Current() == AfterLogout(old(Current()), logoutRes, statusRes)
      ensures loginError == if View() == AuthorizedContent then "" else old(loginError)
    {
      if logoutRes.Ok? && statusRes.Ok? {
        var data := statusRes.data;
        match Member(data, "loggedIn") {
          case None =>
          case Some(v) =>
            loggedIn := v;
            username := Or(Member(data, "username").value, Str(""));
            userRoles := Or(Member(data, "roles").value, Arr([]));
        }
      }
      Rerender();
    }
  }
}
