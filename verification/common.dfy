/** Values shared by every part of the model: an optional value, the JSON
    values a request body can carry together with JavaScript truthiness, the
    day numbers of the two-day programme, and the coloured notice the forms
    show under their submit buttons. */
module Common {

  datatype Option<+T> = None | Some(value: T)

  /** A JSON value as `express.json()` hands it to a handler. `Undefined`
      stands for a key the request body does not have. Numbers are
      integers here (see README). */
  datatype Value =
    | Undefined
    | Null
    | Bool(b: bool)
    | Num(n: int)
    | Str(s: string)

  /** JavaScript truthiness: `!v` is `!Truthy(v)`. */
  predicate Truthy(v: Value) {
    match v
    case Undefined => false
    case Null => false
    case Bool(b) => b
    case Num(n) => n != 0
    case Str(s) => s != ""
  }

  /** A parsed JSON request body. */
  type Object = map<string, Value>

  /** Property access `obj.key` (destructuring included). */
  function Get(o: Object, key: string): Value {
    if key in o then o[key] else Undefined
  }

  /** The two days of the conclave, written `1 | 2` in the pages. */
  type DayNumber = d: int | d == 1 || d == 2 witness 1

  /** The `{ type, text }` message a form shows after a submit. */
  datatype NoticeKind = SuccessNotice | ErrorNotice
  datatype Notice = Notice(kind: NoticeKind, text: string)
}
