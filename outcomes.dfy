/** The failures a checkout session can end in, and the two result shapes used for them. */
module Outcomes {

  /** One constructor per failure the shop raises. A checkout failure names the cart line it stopped at. */
  datatype Error =
    | EmptyCart
    | ProductExpired(line: nat)
    | OutOfStock(line: nat)
    | InsufficientStockOnAdd
    | InsufficientFunds

  /** The result of an operation that only succeeds or fails. */
  datatype Outcome = Pass | Fail(error: Error)

  /** The result of an operation that yields a value when it succeeds. */
  datatype Result<T> = Ok(value: T) | Err(error: Error)
}
