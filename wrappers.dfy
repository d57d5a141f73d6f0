/** Option and Result, and the view of a Python float that the parsers produce. */
module Wrappers {

  datatype Option<+T> = None | Some(value: T)

  datatype Result<+T, +E> = Ok(value: T) | Err(error: E)

  /** A Python float: a finite value, an infinity, or NaN (`float("NaN")`). */
  datatype Float = Finite(value: real) | Infinite(negative: bool) | NaN

  /**
   * The error that ends a parser: `int()` or `float()` rejecting a text, or
   * `datetime.fromtimestamp` rejecting a number it cannot turn into a date.
   */
  datatype ConversionError = ValueError(text: string) | TimestampError(seconds: Float)
}
