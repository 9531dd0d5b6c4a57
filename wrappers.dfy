/** The optional-value datatype that stands for TypeScript's `T | null`,
    `T | undefined` and optional properties (`field?: T`). */
module Wrappers {

  datatype Option<+T> = None | Some(value: T) {

    /** `value ?? default` */
    function GetOr(default: T): T {
      match this
      case Some(v) => v
      case None => default
    }
  }
}
