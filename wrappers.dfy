/** Optional values and JavaScript completions, shared by every module of the loader model. */
module Wrappers {

  /** A field that is present (`Some`) or `undefined` (`None`). */
  datatype Option<+T> = None | Some(value: T) {

    /** The value, or `default` when the field is absent. */
    function GetOr(default: T): T
    {
      match this
      case Some(v) => v
      case None => default
    }
  }

  /** How a JavaScript call ended: it returned a value, or it threw (a TypeError from reading a
      property of `undefined` or `null`). */
  datatype Completion<+T> = Normal(value: T) | Thrown

  /** Appending in two steps is appending the concatenation. */
  lemma AppendAssoc<T>(a: seq<T>, b: seq<T>, c: seq<T>)
    ensures a + b + c == a + (b + c)
  {
  }
}
