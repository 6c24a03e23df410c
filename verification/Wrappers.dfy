/** The two failure-carrying datatypes the models share. */
module Wrappers {

  datatype Option<+T> = None | Some(value: T)

  /** `Err` stands for the exception the source throws at that point. */
  datatype Result<+T> = Ok(value: T) | Err
}
