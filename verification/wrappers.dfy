/** Option, Result and Outcome: the model's stand-ins for C# nulls and exceptions. */
module Wrappers {

  /** A value that may be absent (a C# reference that may be null). */
  datatype Option<+T> = None | Some(value: T)

  /** The value of an operation that either returns or throws. */
  datatype Result<+R, +E> = Success(value: R) | Failure(error: E)

  /** The outcome of an operation that returns nothing but may throw. */
  datatype Outcome<+E> = Pass | Fail(error: E)

  /** `s` with `prefix` removed from its front, if it starts with it. */
  function StripPrefix<T(==)>(prefix: seq<T>, s: seq<T>): (rest: Option<seq<T>>)
    ensures rest.Some? <==> |prefix| <= |s| && s[..|prefix|] == prefix
    ensures rest.Some? ==> s == prefix + rest.value
  {
    if |prefix| <= |s| && s[..|prefix|] == prefix then
      assert s == prefix + s[|prefix|..];
      Some(s[|prefix|..])
    else None
  }
}
