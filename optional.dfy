/** A value that may be absent: an unset environment variable, a missing JSON key, no matching column. */
module Optional {
  datatype Option<T> = None | Some(value: T)
  {
    /** The value, or `default` when absent (Python's `dict.get(key, default)` / `os.getenv(name, default)`). */
    function GetOr(default: T): T
    {
      match this
      case Some(v) => v
      case None => default
    }
  }
}
