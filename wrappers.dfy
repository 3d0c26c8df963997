/** Optional results, and the C++ convention that the value 0 means "failed". */
module Wrappers {

  datatype Option<+T> = None | Some(value: T)

  /** Reads a sentinel-0 value back as an optional one. */
  function NonZero(v: int): Option<int>
  {
    if v == 0 then None else Some(v)
  }

  /** A decoder that reports success and a value, where a value of 0 is also refused. */
  function NonZeroResult(o: Option<int>): Option<int>
  {
    match o
    case None => None
    case Some(v) => NonZero(v)
  }
}
