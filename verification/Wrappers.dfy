/** Values shared by every component: optional values, results with an error text, outcomes of writes, file contents. */
module Wrappers {

  datatype Option<+T> = None | Some(value: T)

  datatype Result<+T> = Success(value: T) | Failure(error: string)

  /** Whether a write to a store succeeds, or reports an error before or after taking effect. */
  datatype Write = Succeeds | Fails(applied: bool)

  predicate Effective(w: Write)
  {
    w.Succeeds? || w.applied
  }

  newtype byte = x: int | 0 <= x < 256

  type Bytes = seq<byte>
}
