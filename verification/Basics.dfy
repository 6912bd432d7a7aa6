/** Shared value types: optional values, bytes, and the outcome of a call to a remote service. */
module Basics {

  datatype Option<+T> = None | Some(value: T)

  type Byte = b: int | 0 <= b < 256
  type Bytes = seq<Byte>

  /** How a call to PostgreSQL, S3, Kafka or Redis ends as its caller sees it. `Ok` is a normal answer.
      `Lost` is a raised error; the service may or may not have carried the request out. */
  datatype Call = Ok | Lost(applied: bool) {
    /** True if the request took effect at the service. */
    predicate Took() {
      Ok? || applied
    }
  }

  /** Counters that read as zero until first incremented. */
  function CountAt<K>(counts: map<K, nat>, k: K): nat {
    if k in counts then counts[k] else 0
  }
}
