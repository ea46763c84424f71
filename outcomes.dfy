/** Optional values and tagged outcomes shared by the other modules. */
module Outcomes {

  /** Python's `Optional[T]`: `None` or a value. */
  datatype Option<+T> = None | Some(value: T)

  /** What a call that may raise gives back: its value, or the text of the
      exception it raised (`str(e)`). */
  datatype Outcome<+T> = Ok(value: T) | Err(error: string)
}
