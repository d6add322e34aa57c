/**
 * The outcome type shared by the symmetric options bag and the algorithm-name
 * parser: a value on success, or one kind of `CryptoError`.
 */
module CryptoErrors {

  /** The error kinds that the modelled operations can report. */
  datatype CryptoError =
    | UnsupportedOption     // the option name is not one this bag knows
    | OptionNotSet          // a known option was read before it was written
    | UnsupportedAlgorithm  // the algorithm name is not one of the supported ones

  /** Rust's `Result<T, CryptoError>`. */
  datatype Result<T> = Ok(value: T) | Err(error: CryptoError)
}
