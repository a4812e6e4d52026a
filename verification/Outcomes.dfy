/** The two outcome types shared by every component. */
module Outcomes {

  datatype Option<+T> = None | Some(value: T) {
    /** The value, or a default: `std::optional::value_or`. */
    function Or(default: T): T {
      if Some? then value else default
    }
  }

  /** A computation that returns a value or throws an exception carrying its `what()` text. */
  datatype Result<+T> = Ok(value: T) | Throw(what: string)
}
