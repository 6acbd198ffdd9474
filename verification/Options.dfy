/** Small value types shared by the other modules. */
module Options {

  datatype Option<+T> = None | Some(value: T)

  /** A Python field tested with `is True` and `is False`; anything else is `Unknown`. */
  datatype Flag = Yes | No | Unknown
}
