/** A value that may be absent: a null reference, a missing JSON field, an empty retained cell. */
module Options {
  datatype Option<T> = None | Some(value: T) {
    function GetOr(default: T): T { if Some? then value else default }
  }
}
