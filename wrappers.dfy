/** Swift's `Optional`, and the Foundation value types the records store. */
module Wrappers {

  /** `T?` in Swift: `nil` is `None`. */
  datatype Option<+T> = None | Some(value: T) {

    /** The `??` operator: the wrapped value, or `default` when there is none. */
    function GetOr(default: T): T
    {
      match this
      case Some(v) => v
      case None => default
    }
  }

  /** `Date`: seconds since the reference date (a `TimeInterval`). */
  type Date = real

  /** `UUID`: only its identity matters here. */
  type Uuid = nat

  /** `Data`: a byte buffer. */
  type Bytes = seq<bv8>
}
