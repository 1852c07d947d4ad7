/**
  Values the Fiber server handlers exchange: what a session holds, and the
  status code and JSON payload a handler answers with.
 */
module Server {

  const StatusOK := 200
  const StatusNoContent := 204
  const StatusBadRequest := 400
  const StatusUnauthorized := 401
  const StatusNotFound := 404
  const StatusInternalServerError := 500

  /** A value stored in a session (an `interface{}` in the server); Nil when the key is unset. */
  datatype Value = Nil | BoolVal(b: bool) | StrVal(s: string) | StrListVal(list: seq<string>)

  /** The key/value data of one session. */
  type SessionData = map<string, Value>

  /** sess.Get(key): the stored value, or Nil. */
  function Get(sess: SessionData, key: string): Value
  {
    if key in sess then sess[key] else Nil
  }

  /** The `.(bool)` assertion on "loggedIn" that both the gate and the status handler perform. */
  predicate IsLoggedIn(sess: SessionData)
  {
    match Get(sess, "loggedIn")
    case BoolVal(v) => v
    case _ => false
  }

  /** One row of the thingamabob listing. */
  datatype Row = Row(id: int, name: string)

  /** The payloads the handlers send. */
  datatype Body =
    | StatusText                          // c.SendStatus: no JSON, only the status line's text
    | LoggedOut                           // {"loggedIn": false}
    | LoggedIn(username: Value, roles: Value)  // {"loggedIn": true, "username": ..., "roles": ...}
    | Item(id: int, name: string)         // {"id": ..., "name": ...}
    | Items(rows: seq<Row>)               // [{"id": ..., "name": ...}, ...]
    | Message(text: string)               // {"message": ...}

  datatype Response = Response(status: int, body: Body)
}
