/** Option: the value of a lookup that may find nothing (Python's None).
    Result: a value, or the text of the exception raised instead. */
module Wrappers {

  datatype Option<+T> = None | Some(value: T)

  datatype Result<+T> = Ok(value: T) | Raised(error: string)
}
