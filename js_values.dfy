/**
  The JavaScript values the React client reads out of decoded JSON bodies,
  with the two operations its handlers apply to them: property access and
  the `||` default.
 */
module JsValues {
  import opened Wrappers

  /** A JavaScript value as JSON decoding produces it, plus `undefined`. Numbers are integers here. */
  datatype JsVal =
    | Undefined
    | Null
    | Bool(b: bool)
    | Num(n: int)
    | Str(s: string)
    | Arr(items: seq<JsVal>)
    | Obj(fields: map<string, JsVal>)

  predicate Truthy(v: JsVal)
  {
    match v
    case Undefined => false
    case Null => false
    case Bool(b) => b
    case Num(n) => n != 0
    case Str(s) => s != ""
    case Arr(_) => true
    case Obj(_) => true
  }

  /** `a || b`. */
  function Or(a: JsVal, b: JsVal): JsVal
  {
    if Truthy(a) then a else b
  }

  /**
    `v.key` for the data properties a decoded JSON body carries: None when
    `v` is null or undefined (reading a property of either throws a
    TypeError); an object's own property reads its value; a name the object
    does not hold, or any name on a non-object, reads `undefined`. Properties
    inherited from a prototype (`length`, `toString`) are not modelled; the
    client reads only `loggedIn`, `username` and `roles`, which no prototype
    defines.
   */
  function Member(v: JsVal, key: string): (r: Option<JsVal>)
    ensures r.None? <==> v == Undefined || v == Null
    ensures v.Obj? && key in v.fields ==> r == Some(v.fields[key])
    ensures v.Obj? && key !in v.fields ==> r == Some(Undefined)
  {
    match v
    case Undefined => None
    case Null => None
    case Obj(fields) => Some(if key in fields then fields[key] else Undefined)
    case _ => Some(Undefined)
  }

  /** `x || default` yields `x` itself when truthy and `default` otherwise, so it is never falsy unless `default` is. */
  lemma OrDefault(x: JsVal, default: JsVal)
    ensures Or(x, default) == x || Or(x, default) == default
    ensures Truthy(default) ==> Truthy(Or(x, default))
  {
  }
}
