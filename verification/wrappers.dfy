/** Small value wrappers shared by the modules of this model. */
module Wrappers {

  /** An optional value: `None` stands for JavaScript's `undefined`/`null` or Java's `null`. */
  datatype Option<+T> = None | Some(value: T) {
    /** The value, or `default` when there is none. */
    function GetOr(default: T): T {
      if Some? then value else default
    }
  }
}
