/** The optional-value datatype shared by the whole model: a PHP lookup that
    may find nothing (an unset array key, a JSON path that is absent) and a
    PHP operation that raises an error both yield `None`. */
module Maybe {

  datatype Option<+T> = None | Some(value: T) {

    /** The value, or `default` when there is none. */
    function GetOr(default: T): T {
      match this
      case Some(v) => v
      case None => default
    }
  }
}
