/** Small value wrappers shared by every module of the model. */
module Common {

  /** A value that may be absent (JavaScript `null` / `undefined`). */
  datatype Option<T> = None | Some(value: T)

  /** The outcome of an asynchronous call: a resolved value or a rejection. */
  datatype Result<T, E> = Ok(value: T) | Err(error: E)

  /** JavaScript truthiness of a possibly absent string: present and not empty. */
  predicate Truthy(s: Option<string>) {
    s.Some? && s.value != ""
  }
}
