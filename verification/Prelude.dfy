/** Shared by every module: optional values, results, the three ways a Kubernetes read can end, and a fact about sets. */
module Prelude {
  datatype Option<+T> = None | Some(value: T)

  datatype Result<+T> = Ok(value: T) | Err(error: string)

  /** A Get, List or lookup: it failed, the object does not exist, or it was read. */
  datatype Read<+T> = Failed(error: string) | Missing | Found(value: T)

  lemma SubsetIsSmaller<T>(a: set<T>, b: set<T>)
    requires a <= b
    ensures |a| <= |b|
  {
    assert b == a + (b - a);
  }
}
