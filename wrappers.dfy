/** Failure-compatible datatypes shared by the cart store and the classifier. */
module Wrappers {

  /** A value that may be absent: a missing or unreadable storage entry, a product not found. */
  datatype Option<+T> = None | Some(value: T)

  /** Either a computed value or an error message. */
  datatype Result<+T> = Ok(value: T) | Err(error: string)
}
