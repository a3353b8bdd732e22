// Vocabulary shared by the other modules.
module Base {

  datatype Option<+T> = None | Some(value: T)

  // The durable outcome of a step or a workflow. Encoded values are opaque
  // tokens: NULL and the empty string are one token, which is how
  // RecordOperationResult compares them.
  datatype Outcome = Output(value: string) | Failure(error: string)

  // One history is a prefix of the other.
  predicate Comparable<T(==)>(a: seq<T>, b: seq<T>) {
    a <= b || b <= a
  }
}
