# Session-guarded thingamabob app, modelled in Dafny

The application has two halves.

- **Go Fiber server** (`go-fiber/main.go`):
  - keeps a cookie session per browser;
  - logs users in against a fixed two-user table;
  - reports the session's login state;
  - guards an in-memory "thingamabob" table (id to name) behind a role gate;
  - can read its session store's address from a `redis://host:port/db` connection string.
- **React client** (`react-app/src/App.js`, `react-app/src/SessionTimeoutAlert.js`):
  - holds `loggedIn`, `username` and `userRoles`, filled in from the server's answers;
  - shows either the authorized page or the login form;
  - has a separate session-timeout alert component that warns before a session lapses and counts down.

The model covers the decision logic and state of both halves.

| file | module | what it holds |
|---|---|---|
| `wrappers.dfy` | `Wrappers` | `Option` and `Result` |
| `go_text.dfy` | `GoText` | the Go library functions the parser relies on: `strings.TrimPrefix`, `strings.Split` (with its inverse `Join`), and `strconv.Atoi` on 64-bit `int` (with `Itoa` as its inverse) |
| `redis_conn.dfy` | `RedisConn` | `parseRedisConnStr` |
| `server.dfy` | `Server` | session values, status codes and response payloads |
| `auth.dfy` | `Auth` | `contains`; the decision `requireAuth` makes; the login, logout and status handlers as functions from the session (and the store's answers) to a response and a new session |
| `thingamabobs.dfy` | `Thingamabobs` | the thingamabob table as a class `Store`, whose methods update the map and the id counter in place; the listing is built by a loop over the map and then sorted |
| `js_values.dfy` | `JsValues` | the JavaScript values a decoded JSON body yields, truthiness, `a || b` and property access (which throws on `null`/`undefined`) |
| `app_session.dfy` | `App` | the client's session transitions as functions (`AfterCheck`, `AfterLogin`, `AfterLogout`), and the class `AppState` whose handler methods apply them |
| `timeout_alert.dfy` | `TimeoutAlert` | the alert as a class `SessionTimeoutAlert`, with the browser's timers as a value and one method per event: mount, re-render with new props, warning timer fired, interval tick, mousedown, the two buttons, unmount |
| `protocol.dfy` | `Protocol` | how a server response reaches a client fetch chain; lemmas that follow a login, a status check and a logout from the server's session to the page the client shows |

Time is not modelled as a clock. The browser firing a timer, or ticking an interval, is an event method that names the timer's id.

React's effect semantics are written out in `SessionTimeoutAlert.Rerender`:

- When a render changes an effect's dependencies, all cleanups of the previous run go first, then the bodies.
- A cleanup sees the values of the render that installed it. The countdown's cleanup therefore resets `timeLeft` with the previous `sessionTimeout`.
- A state change made inside an effect causes one more render.

Facts about the code that the model keeps:

- There is no CSRF retry gateway, activity counter or cross-tab synchronisation.
- The server sends no `sessionTimeout`, and `App` never mounts the alert.
- A `sessionTimeout` at or below 0 still arms a warning timer. Its delay is the 500 ms floor (`WarningDelay`, `SessionTimeoutAlert.Mount`). No timer is skipped.
- A failed logout leaves the client's session as it was (`App.AfterLogout`). It is not reset.

## Model

| member | source | states |
|---|---|---|
| GoText.TrimPrefix | go-fiber/main.go:424 | the result is `s` with `prefix` removed when `s` starts with it, and `s` itself otherwise |
| GoText.Split | go-fiber/main.go:427-434 | one more piece than there are separators, no piece contains the separator, and every character of a piece comes from the input |
| GoText.JoinSplit | go-fiber/main.go:427-434 | splitting loses nothing: joining the pieces with the separator gives the input back |
| GoText.SplitJoin | go-fiber/main.go:427-434 | pieces without the separator, joined and split again, come back unchanged |
| GoText.Atoi | go-fiber/main.go:441-450 | succeeds exactly on an optional '+' or '-' followed by at least one decimal digit (leading zeros allowed) whose signed value fits in 64 bits, and then yields that value |
| GoText.AtoiItoa | go-fiber/main.go:441-450 | every 64-bit integer, written in decimal, parses back to itself |
| RedisConn.ParseRedisConnStr | go-fiber/main.go:422-454 | after the optional `redis://` is removed, the shape error arises exactly when the rest has not exactly one '/' or its first piece has not exactly one ':'; a number error carries text Atoi refuses; a success carries a host without ':' or '/', and the input is that host, ':', a port text and '/', a database text that Atoi reads as the returned port and database |
| RedisConn.RoundTrip | go-fiber/main.go:420-454 | `redis://host:port/db` with a host free of ':' and '/' and 64-bit port and database parses to exactly that host, port and database |
| RedisConn.ShapedInput | go-fiber/main.go:440-453 | a string of the documented shape always passes the shape checks; it then fails with the port's text when Atoi refuses it, else with the database's text when Atoi refuses that, and otherwise yields the host and both values |
| RedisConn.NoSlashFails | go-fiber/main.go:427-431 | a string with no '/' after the optional scheme, such as one without a database number, fails with the shape error |
| RedisConn.SplitShape | go-fiber/main.go:427-438 | a string of the documented shape splits into host-and-port and database, and then into host and port |
| Auth.Contains | go-fiber/main.go:410-418 | true exactly when some element equals the item |
| Auth.HoldsAnyRole | go-fiber/main.go:389-398 | true exactly when some required role is among the user's roles |
| Auth.RequireAuth | go-fiber/main.go:375-406 | 500 on a session lookup error; 401 unless "loggedIn" holds the boolean true; with no required roles any logged-in session passes; with required roles it passes exactly when "roles" is a string list sharing at least one role with them; it only ever rejects with 500 or 401 |
| Auth.MalformedRolesRejected | go-fiber/main.go:389-401 | a "roles" value that is not a string list fails every role check with 401 |
| Auth.HandleLogin | go-fiber/main.go:127-171 | 500 for a lookup error, 400 for a body that does not parse; 200 with loggedIn, the name and exactly that user's roles, with the session holding them, exactly when the name is known, its password matches and the save works; 500 when that save fails; 401 `{"loggedIn": false}` for any other credentials; every failure leaves the session untouched |
| Auth.HandleLogout | go-fiber/main.go:173-190 | 200 `{"loggedIn": false}` with an emptied session exactly when lookup and destroy both work; otherwise 500 and the session unchanged |
| Auth.HandleAuthStatus | go-fiber/main.go:192-216 | 500 exactly on a lookup error; otherwise 200, reporting logged in with the stored username and roles exactly when "loggedIn" is the boolean true, and `{"loggedIn": false}` otherwise |
| Auth.StatusAgreesWithGate | go-fiber/main.go:192-216 | the status handler reports a session as logged in exactly when the gate without roles lets it through |
| Auth.LoginThenStatus | go-fiber/main.go:147-163 | after a successful login the status handler reports that user's name and roles, and an "admin" route admits the session exactly when those roles include "admin" |
| Auth.LogoutLocksOut | go-fiber/main.go:181-188 | a destroyed session is refused with 401 by every gate |
| Auth.FixedUsersRoles | go-fiber/main.go:34-43 | of the two fixed users, both pass the role-free gate and only "admin" passes the "admin" gate |
| Thingamabobs.Insert | go-fiber/main.go:245-247 | putting a row with a new id into a listing sorted by id keeps it strictly ascending and adds exactly that row |
| Thingamabobs.SortById | go-fiber/main.go:244-247 | rows with distinct ids come out strictly ascending by id and as the same multiset |
| Thingamabobs.NextKey | go-fiber/main.go:237 | a map range yields some key not yet visited |
| Thingamabobs.Store.constructor | go-fiber/main.go:45-50 | the table starts with ids 1 and 2 named "Thingamabob 1" and "Thingamabob 2" and the counter at 3 |
| Thingamabobs.Store.GetAll | go-fiber/main.go:226-250 | 200 with a listing in strictly ascending id order that holds a row exactly for each stored id, with its name |
| Thingamabobs.Store.GetOne | go-fiber/main.go:252-274 | 400 when the id is not an integer; 200 with the id and its name when stored; 404 "Thingamabob not found" otherwise |
| Thingamabobs.Store.Create | go-fiber/main.go:276-302 | 400 with no change for an unparsable body; otherwise the name goes under the counter's value, which was free, that id is answered, the counter moves up by exactly one and no other entry changes |
| Thingamabobs.Store.Update | go-fiber/main.go:304-341 | 400 for an empty id; 404 for an id that is not an integer or not stored; for a stored id 400 on an unparsable body, else only that entry's name changes and it is answered; the counter never moves |
| Thingamabobs.Store.Delete | go-fiber/main.go:343-365 | 400 for an empty id; 204 after removing exactly that key when stored; 404 with no change otherwise |
| Thingamabobs.CreateReadUpdateDelete | go-fiber/main.go:252-365 | creating, reading, renaming and deleting one entry through its decimal id succeeds step by step, and the table ends as it began with only the counter moved on |
| JsValues.Member | react-app/src/App.js:163-165 | a property read fails exactly on `null` and `undefined`; an object's own property reads its value, and a name the object lacks reads `undefined` |
| JsValues.OrDefault | react-app/src/App.js:164-165 | `x || d` is `x` or `d`, and truthy whenever `d` is |
| App.FromStatus | react-app/src/App.js:161-166 | fails exactly when the body is null; otherwise loggedIn is copied verbatim, the username is kept when truthy and '' otherwise, the roles are kept when truthy and [] otherwise |
| App.AbsentFieldsDefault | react-app/src/App.js:164-165 | an answer without username and roles yields '' and [] |
| App.FromLogin | react-app/src/App.js:96-99 | fails exactly when the body is null; otherwise loggedIn, username and roles are taken exactly as sent |
| App.AfterCheck | react-app/src/App.js:144-172 | a failed fetch or a null body resets to exactly the initial state; a good answer gives the defaulted session; the roles are never falsy |
| App.AfterLogin | react-app/src/App.js:75-106 | the error is set exactly when the fetch fails or the body is null, and then it is 'Login failed' with the session unchanged; otherwise the session is the answer's |
| App.AfterLogout | react-app/src/App.js:12-53 | the session changes only when the logout and the status call both succeed, and then as a status check would set it |
| App.FailedCheckShowsLogin | react-app/src/App.js:167-185 | after a failed status check the login page shows |
| App.FailedLogoutKeepsView | react-app/src/App.js:46-53 | a failed logout keeps the page that was showing |
| App.AppState.constructor | react-app/src/App.js:139-141 | the app starts logged out, with '' and [] and the login page |
| App.AppState.Rerender | react-app/src/App.js:185 | the login form's error is dropped exactly when the authorized page shows |
| App.AppState.CheckAuthentication | react-app/src/App.js:144-179 | the new session is `AfterCheck` of the fetch outcome, and the login form's error goes when the authorized page shows |
| App.AppState.HandleLogin | react-app/src/App.js:75-106 | the new session is `AfterLogin`'s; the form shows 'Login failed' after a failure, unless the authorized page shows |
| App.AppState.HandleLogout | react-app/src/App.js:12-53 | the new session is `AfterLogout` of the two fetch outcomes |
| TimeoutAlert.WarningDelay | react-app/src/SessionTimeoutAlert.js:34 | never below 500 ms; the timeout less 60 s, in milliseconds, above 60 s; exactly 500 ms at or below 60 s |
| TimeoutAlert.CountdownStart | react-app/src/SessionTimeoutAlert.js:60 | at most 60 and at most the timeout, and equal to one of them |
| TimeoutAlert.HidesOnNthTick | react-app/src/SessionTimeoutAlert.js:44-55 | a countdown from a positive n hides the alert on exactly its n-th tick, and any other start on the first |
| TimeoutAlert.SessionTimeoutAlert.Render | react-app/src/SessionTimeoutAlert.js:72-84 | something renders exactly while the alert is shown, and what it shows is the seconds left on the countdown |
| TimeoutAlert.SessionTimeoutAlert.Mount | react-app/src/SessionTimeoutAlert.js:7-40 | hidden, 60 on the countdown, no interval; logged in, exactly one warning timer armed with WarningDelay, and none otherwise |
| TimeoutAlert.SessionTimeoutAlert.Rerender | react-app/src/SessionTimeoutAlert.js:30-62 | unchanged props change nothing; changed props cancel the pending timer, hide the alert and stop the countdown, then when logged in arm exactly one fresh timer with the new WarningDelay, and when logged out leave none; a shown alert's countdown resets with the new timeout; a hidden alert's countdown resets with the old timeout when the timeout changed, and keeps its value otherwise |
| TimeoutAlert.SessionTimeoutAlert.FireTimeout | react-app/src/SessionTimeoutAlert.js:34-62 | the pending timer firing shows the alert with CountdownStart seconds and starts one countdown; any other id changes nothing |
| TimeoutAlert.SessionTimeoutAlert.Tick | react-app/src/SessionTimeoutAlert.js:44-61 | the running countdown loses exactly one second; at or below zero the alert hides, the countdown stops and is reset; no parent call, no prop change, the warning timer untouched |
| TimeoutAlert.SessionTimeoutAlert.MouseDown | react-app/src/SessionTimeoutAlert.js:15-19 | a mousedown off a shown alert hides it and stops its countdown; the props, the parent calls and the warning timer are untouched |
| TimeoutAlert.SessionTimeoutAlert.ExtendSession | react-app/src/SessionTimeoutAlert.js:64-66 | one call to checkAuthentication and nothing else |
| TimeoutAlert.SessionTimeoutAlert.HandleLogout | react-app/src/SessionTimeoutAlert.js:68-70 | one call to logout and nothing else |
| TimeoutAlert.SessionTimeoutAlert.Unmount | react-app/src/SessionTimeoutAlert.js:21-28 | no timer and no interval remain and the listener is gone; nothing else changes (no parent call, state and props as they were) |
| TimeoutAlert.AtMostOneTimer | react-app/src/SessionTimeoutAlert.js:30-40 | while mounted at most one warning timer and at most one countdown exist |
| Protocol.EncodeValue | go-fiber/main.go:210-214 | nil becomes null (and only nil does), a boolean and a string are sent as themselves, and a string list becomes an array holding the same strings in the same order |
| Protocol.EncodeValueInjective | go-fiber/main.go:210-214 | distinct session values are sent as distinct JSON |
| Protocol.EncodeBody | go-fiber/main.go:159-169 | a bare status carries no JSON; a logged-in answer reads `loggedIn` true and the stored username and roles, a logged-out one reads `loggedIn` false and no username or roles; an item reads its id and name, a listing reads each row's id and name in order, and a message its text |
| Protocol.Deliver | react-app/src/App.js:155-160 | a response reaches the success branch exactly with a 2xx status and a JSON body, and then with that body |
| Protocol.LoginReachesClient | react-app/src/App.js:82-105 | the client adopts a login exactly when the server accepted it, and then holds the user's name and exact roles and shows the authorized page; every refusal shows 'Login failed' and keeps the client's session |
| Protocol.StatusReachesClient | react-app/src/App.js:149-172 | after a status check the client shows the authorized page exactly when the server's session lookup worked and the session is logged in; otherwise it is back to the initial state |
| Protocol.ReloadAfterLogin | react-app/src/App.js:144-172 | after a successful login a status check restores exactly the session the login answer gave |
| Protocol.LogoutReachesClient | react-app/src/App.js:19-52 | a logout the server carries out, then the client's status call, returns the client to the initial state and the login page |
| Protocol.FailedLogoutReachesClient | react-app/src/App.js:26-52 | a logout the server refuses leaves the client exactly as it was |

## Left out

- Fiber wiring: `main`, the route setup and the CSRF middleware configuration. They only connect the handlers modelled here.
- Session store creation (`createSessionStore`, `createRedisSessionStore`): environment reads, the Redis client and `log.Fatal`. This code is not part of this model.
- The store's internals are not modelled. The handlers take these as given values:
  - whether the lookup worked
  - whether the save or destroy worked
  - the parsed body, or None when `BodyParser` fails
- `thingamabobMux` locking. The store is modelled sequentially. `deleteThingamabob` checks that the key exists before it takes the lock (go-fiber/main.go:354-356), so a concurrent delete can race with it. That race is not modelled.
- RedisConn.ParseRedisConnStr: on an error the Go function also returns partial results (a port already parsed, zero values). The model returns only the error. The only caller stops with `log.Fatal` on any error.
- GoText.Atoi: Go's syntax and range errors are not told apart. Both are a None result.
- Thingamabobs.Store.Create: the counter is an unbounded integer. Go's `int` would wrap after 2^63-1 creations.
- `fetch`, cookies and JSON decoding. Each fetch chain is given its outcome as `Fetch` (`Ok(data)` or `Fail`). The client sends its CSRF header from cookies with inconsistent names (`csrf_` and `csrf_token`). That header is not modelled.
- JsValues.Member: properties inherited from a JavaScript prototype (`length`, `toString`) are not modelled; a name an object does not hold reads `undefined`. The client reads only `loggedIn`, `username` and `roles`, which no prototype defines.
- JSON numbers are integers in `JsValues`. No handler here reads a fraction.
- JSX rendering and styles. What renders is reduced to the view choice (`App.ViewOf`) and the alert's `Render`.
- TimeoutAlert.SessionTimeoutAlert.Rerender: a `sessionTimeout` that is not a number (NaN, undefined) is not modelled. Props are integers.
- TimeoutAlert.WarningDelay: browsers fire a `setTimeout` delay above 2^31-1 ms at once. That clamping is not modelled, so the stated delay holds only below that bound.
- Which element a mousedown lands on is reduced to a flag (`onAlert`).
- The first effect's handler identity is not modelled. Registering it once is harmless, because the handler only reads a ref and calls a setter.
- `react-app/src/App.test.js`. It is a render smoke test that expects text the app does not render.
