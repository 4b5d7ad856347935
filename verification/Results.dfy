/** Optional values, and results that may be an exception. */
module Results {

  datatype Option<T> = None | Some(value: T) {
    function GetOr(default: T): T {
      if Some? then value else default
    }
  }

  datatype Result<T> = Ok(value: T) | Thrown(reason: string)
}
