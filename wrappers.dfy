/**
  Shared result types: an optional value (Java's nullable references) and the
  exceptions that the modelled code can raise or let escape.
*/
module Wrappers {

  /** A Java reference that may be null. */
  datatype Option<+T> = None | Some(value: T)

  /** The exceptions that escape a modelled operation. */
  datatype Fault =
    | WrongType        // the store replied WRONGTYPE: the key holds another kind of value
    | InvalidExpire    // the store rejected a non-positive expire time
    | NotAnInteger     // INCR on a value that is not canonical integer text
    | IncrOverflow     // INCR past the largest 64-bit integer
    | Unmodelled       // SETBIT on string text whose bytes this model does not represent
    | BadJson          // JSONUtil could not turn the stored text into the requested type
    | ClassCast        // a value was cast to a type it does not have
    | NullPointer      // a null reference was dereferenced or unboxed
    | NumberFormat     // Long.valueOf on text that is not a 64-bit integer
    | DuplicateKey     // the relational store rejected an insert on its primary key
    | TooManyResults   // a single-row query matched several rows
    | LoaderFailed     // the caller-supplied loader threw
    | IllegalArgument  // a library call rejected its argument

  /** A value or the exception that was raised instead. */
  datatype Result<+T> = Ok(value: T) | Err(fault: Fault)
}
