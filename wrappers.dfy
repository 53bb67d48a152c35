/** Optional values, the model's stand-in for `undefined`, `null` and `NaN`. */
module Wrappers {

  datatype Option<+T> = None | Some(value: T) {
    function GetOr(default: T): T {
      match this
      case Some(v) => v
      case None => default
    }
  }

  /** A field of a JSON object that can be absent (`undefined`), `null`, or hold a value. */
  datatype Campo<+T> = Ausente | Nulo | Valor(v: T)
}
