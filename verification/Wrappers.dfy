/** Small result types shared by the modules of the project. */
module Wrappers {
  datatype Option<+T> = None | Some(value: T)

  /** `Err` stands for the exception a Python function would raise. */
  datatype Result<+T> = Ok(value: T) | Err(message: string)
}
