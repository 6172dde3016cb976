/** Values shared by the server model and the client model. */
module Values {

  datatype Option<+T> = None | Some(value: T)

  /** A scalar of a JSON request body as the Flask handlers see it
      after decoding: None, a bool, a number or a string. */
  datatype Value = Null | Bool(b: bool) | Num(n: int) | Text(s: string)

  /** Python truthiness of a decoded scalar: None, False, 0 and "" are falsy. */
  predicate Truthy(v: Value)
    ensures Truthy(v) <==> v != Null && v != Bool(false) && v != Num(0) && v != Text("")
  {
    match v
    case Null => false
    case Bool(b) => b
    case Num(n) => n != 0
    case Text(s) => s != ""
  }

  /** `d.get(key)` on a request dictionary: None when the key is absent. */
  function Get(d: map<string, Value>, key: string): (r: Value)
    ensures key !in d ==> r == Null
    ensures key in d ==> r == d[key]
  {
    if key in d then d[key] else Null
  }
}
