/** Small value types shared by every route of the task API. */
module Values {

  /** A value that a request or a record may or may not carry. */
  datatype Option<T> = None | Some(value: T)

  /**
   * What a request schema hands back: the (normalised) value and, when the
   * schema rejected the input, the message of its first violated rule.
   * The schemas themselves are not modelled; their outcome is an input.
   */
  datatype Validation<T> = Validation(value: T, error: Option<string>)

  /**
   * An HTTP reply: `Done` carries a success status and the JSON body,
   * `Refused` a failure status and the `{ error }` message.
   */
  datatype Reply<T> = Done(code: int, body: T) | Refused(code: int, error: string)
}
