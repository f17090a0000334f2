/** Small value types shared by the gateway model: bytes, nullable values
    and the success-or-thrown-error shape of every asynchronous step. */
module Values {

  /** One octet of a Node.js Buffer. */
  newtype byte = x: int | 0 <= x < 256

  /** A nullable value (`null` in JavaScript is `None`). */
  datatype Option<+T> = None | Some(value: T)

  /** The settled state of a promise: fulfilled with a value, or rejected
      with an Error whose `message` is kept. */
  datatype Result<+T> = Success(value: T) | Failure(error: string)

  /** JavaScript truthiness of a nullable string column or field:
      `null` and the empty string are falsy. */
  predicate Truthy(s: Option<string>)
  {
    s.Some? && s.value != ""
  }
}
