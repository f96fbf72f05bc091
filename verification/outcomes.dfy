/** Small failure-compatible datatypes shared by the whole model. */
module Outcomes {

  /** An optional value; `None` stands for Python's `None`. */
  datatype Option<+T> = None | Some(value: T)

  /** What a call into a collaborator whose code is not part of this model
      gave back: a value, or an exception (`Fail`). */
  datatype Outcome<+T> = Ok(value: T) | Fail
}
