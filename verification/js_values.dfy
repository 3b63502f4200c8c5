/** The few JavaScript values the examples handle, and the wrappers the
    other modules share. Numbers are whole numbers here: every number the
    examples use is an integer. */
module JsValues {

  /** A primitive JavaScript value (objects are modelled per example). */
  datatype Value = Undefined | Bool(b: bool) | Num(n: int) | Str(s: string)

  datatype Option<+T> = None | Some(value: T) {
    /** The value held, or `default` when there is none. */
    function GetOr(default: T): T {
      match this
      case Some(v) => v
      case None => default
    }
  }

  /** The completion of an operation that may throw a `TypeError`. */
  datatype Completion<+T> = Normal(value: T) | ThrowTypeError

  /** `typeof v` for a primitive: never "object" (only `null` and objects are). */
  function TypeOfPrimitive(v: Value): (t: string)
    ensures t != "object"
    ensures t == "string" <==> v.Str?
    ensures t == "undefined" <==> v.Undefined?
  {
    match v
    case Undefined => "undefined"
    case Bool(_) => "boolean"
    case Num(_) => "number"
    case Str(_) => "string"
  }
}
