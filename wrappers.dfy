/** Optional values (Java's nullable references) and results of operations that can throw. */
module Wrappers {

  /** `None` stands for a Java `null`. */
  datatype Option<+T> = None | Some(value: T)

  /** `Err` carries the simple name of the Java exception class that was thrown. */
  datatype Result<+T> = Ok(value: T) | Err(error: string)
}
