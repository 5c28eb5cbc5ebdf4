/** Small shared vocabulary. */
module Prelude {

  datatype Option<+T> = None | Some(value: T) {

    /** The value inside, or `default` when there is none. */
    function GetOr(default: T): T {
      match this
      case None => default
      case Some(v) => v
    }
  }

  type Byte = b: nat | b < 256

  lemma EmptyOrHasHead<T>(s: seq<T>)
    ensures s == [] || s[0] in s
  {
  }
}
