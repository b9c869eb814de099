/** JavaScript's `null`/absent values: a `dueDate` that may be null, an option
    that may be left out, an `editingId` that is null when nothing is edited. */
module Optional {
  datatype Option<+T> = None | Some(value: T) {
    /** The value, or `default` when absent (the `x || default` idiom). */
    function GetOr(default: T): T {
      match this
      case Some(v) => v
      case None => default
    }
  }
}
