/** Go's `(value, error)` pairs and nil-able pointers, as datatypes. */
module Wrappers {

  /** A value that may be absent (a nil pointer in Go). */
  datatype Option<+T> = None | Some(value: T)

  /** A result or an error carrying Go's error text. */
  datatype Result<+T> = Ok(value: T) | Err(msg: string)

  /** An error wrapped with a prefix, as `fmt.Errorf("prefix: %w", err)` does. */
  function Wrap(prefix: string, inner: string): (m: string)
    ensures |m| == |prefix| + 2 + |inner|
    ensures m[..|prefix|] == prefix && m[|prefix| + 2..] == inner
  {
    prefix + ": " + inner
  }
}
