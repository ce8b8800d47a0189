/** Optional values, used for JavaScript's `undefined`/`null` fields and for dates
    that fail to parse. */
module Wrappers {

  datatype Option<+T> = None | Some(value: T) {

    /** The wrapped value, or `default` when absent (JavaScript's `x ?? default`). */
    function GetOr(default: T): T
    {
      match this
      case Some(v) => v
      case None => default
    }
  }

  /** A loosely typed value read from a JSON body or a stored document: numbers are the
      integers the code compares against, `Other` any object or array, told apart by
      its identity `ref` as `===` and a `Map`'s keys do. */
  datatype JsValue = Undefined | Null | Num(n: int) | Str(s: string) | Bool(b: bool) | Other(ref: int)

  /** JavaScript truthiness: `undefined`, `null`, `0`, `''` and `false` are falsy. */
  predicate Truthy(v: JsValue)
  {
    match v
    case Undefined => false
    case Null => false
    case Num(n) => n != 0
    case Str(s) => s != ""
    case Bool(b) => b
    case Other(_) => true
  }
}
