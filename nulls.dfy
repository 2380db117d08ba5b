/** The "unset" sentinel that the option payloads use for a `double` that has
    not been given a value (`Null<double>()`).  */
module Nulls {

  /** The value of `Null<double>()`.  The header that defines it is not part of
      this model; QuantLib takes the largest finite single-precision float,
      (2 - 2^-23) * 2^127 = 2^128 - 2^104, a large positive number.  The model
      relies on two facts only: it is one fixed value, and it is not negative
      (so the sign check alone would let an unset maturity through). */
  const NullReal: real := 340282346638528859811704183484516925440.0

  /** A `double` field counts as unset exactly when it holds the sentinel. */
  predicate IsNull(x: real) {
    x == NullReal
  }
}
