/** The optional-value datatype and a slicing fact shared by the modules of the model. */
module Wrappers {

  /** Python's `None` (or a missing dictionary key) versus a present value. */
  datatype Option<+T> = None | Some(value: T) {

    /** The value, or `default` when absent: Python's `x or default` on a nullable column. */
    function GetOr(default: T): T {
      match this
      case Some(v) => v
      case None => default
    }
  }

  /** Slicing a suffix of `s` is slicing `s` itself. */
  lemma SliceOfSuffix<T>(s: seq<T>, i: nat, n: nat)
    requires i + n <= |s|
    ensures s[i..][..n] == s[i..i + n] && s[i..][n..] == s[i + n..]
  {
  }
}
