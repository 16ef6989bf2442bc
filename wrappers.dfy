/** Optional values (Java's nullable references) and results that may carry one of the
    exceptions the modelled code throws. */
module Wrappers {

  /** A Java reference that may be null. */
  datatype Option<+T> = None | Some(value: T)

  /** The exceptions that abort predicate construction. */
  datatype Exception =
    | IllegalArgumentException    // bad capability or multiplicity (also Spring's Assert)
    | IllegalStateException       // unknown operation keyword
    | ClassCastException          // a non-number value handed to a numeric comparison
    | ConversionFailedException   // the conversion service could not convert a raw value

  /** The outcome of a call that either returns normally or throws. */
  datatype Result<+T> = Ok(value: T) | Err(error: Exception)
}
