/**
 * What the two Flask `predict` routes share: the outcome of reading one
 * field of the JSON body, and the JSON reply.
 */
module Server {

  /**
   * `int(data['k'])`, `float(data['k'])` or `data['k']`: the converted
   * value, or the message of the exception it raises (a missing key, a
   * value the conversion refuses).
   */
  datatype Conv<+T> = Given(value: T) | Raises(message: string)

  /**
   * The reply of `predict`: `{success: true, predicted_price: ...}`, or
   * `{success: false, error: str(e)}` with its HTTP status.
   */
  datatype Response = Success(predictedPrice: real) | Failure(status: nat, error: string)

  /** The status every exception caught by `predict` is reported with. */
  const BadRequest := 400

}
