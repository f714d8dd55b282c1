/** Small datatypes shared by every module of the model. */
module Wrappers {

  /** A value that may be absent: `null`/`undefined` in the application. */
  datatype Option<+T> = None | Some(value: T) {

    /** The carried value, or `default` when absent. */
    function GetOr(default: T): T {
      match this
      case Some(v) => v
      case None => default
    }
  }

  /**
   * The outcome of one backend request as the application observes it:
   * the response body, or an HTTP error with its status code
   * (a network failure arrives with status 0).
   */
  datatype Response<+T> = Ok(body: T) | Failed(status: int)

  /** `map.get(key)`, absent keys giving None. */
  function Lookup<K, V>(m: map<K, V>, key: K): (r: Option<V>)
    ensures r.Some? <==> key in m
    ensures r.Some? ==> r.value == m[key]
  {
    if key in m then Some(m[key]) else None
  }
}
