/** Optional values and the truthiness tests the Python source applies to them. */
module Wrappers {

  /** A dictionary entry that may be missing: `None` stands for an absent key. */
  datatype Option<+T> = None | Some(value: T) {

    /** `d.get(key, default)` */
    function GetOr(default: T): T {
      match this
      case Some(v) => v
      case None => default
    }
  }

  /** Python's `bool(x)` on an optional integer: `None` and `0` are false. */
  predicate IntTruthy(x: Option<int>) {
    x.Some? && x.value != 0
  }

  /** Python's `bool(x)` on an optional number: `None` and `0.0` are false. */
  predicate RealTruthy(x: Option<real>) {
    x.Some? && x.value != 0.0
  }

  /** Python's `bool(x)` on an optional list or string: `None` and empty are false. */
  predicate SeqTruthy<T>(x: Option<seq<T>>) {
    x.Some? && |x.value| > 0
  }
}
