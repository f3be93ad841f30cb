/** Small value types shared by the cache model: an optional value (Swift's `T?`)
    and the bytes of Foundation's `Data`. */
module Wrappers {

  /** Swift's optional: `nil` is `None`. */
  datatype Option<+T> = None | Some(value: T) {

    /** The `??` operator: the wrapped value, or `default` for `nil`. */
    function GetOr(default: T): (r: T)
      ensures Some? ==> r == value
      ensures None? ==> r == default
    {
      match this
      case Some(v) => v
      case None => default
    }
  }

  /** One octet of a `Data` value. */
  newtype byte = x: int | 0 <= x < 256

  /** The contents of a `Data` value. */
  type Bytes = seq<byte>
}
