/** Option and Result, the two shapes the relay's Rust code returns
    (`Option<String>` and `Result<_, Box<dyn Error>>`). An error is kept
    as its human-readable description, the text `to_string()` yields. */
module Wrappers {

  datatype Option<+T> = None | Some(value: T)

  datatype Result<+T> = Success(value: T) | Failure(error: string)
}
