/** Optional values, call results, and the error an external service call can raise. */
module Wrappers {

  /** A value that may be absent: Python's `None`, JavaScript's `undefined`, or a missing key. */
  datatype Option<+T> = None | Some(value: T) {

    /** The value, or `default` when absent: Python's `d.get(key, default)`. */
    function GetOr(default: T): T {
      match this
      case Some(v) => v
      case None => default
    }
  }

  /** The outcome of a call into a service outside the model. */
  datatype Result<+T, +E> = Ok(value: T) | Err(error: E)

  /** A failed call to an external service (a botocore `ClientError`, a failed HTTP request). */
  datatype ProviderError = ProviderError(message: string)

  /** Python truthiness of an optional string: present and non-empty. */
  predicate Truthy(s: Option<string>) {
    s.Some? && s.value != ""
  }
}
