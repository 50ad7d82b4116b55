/** JavaScript value shapes that the framework's signatures use: a value that may be
    `undefined`, a value that may be `null`, and a call that either returns or throws. */
module JsValues {

  /** `T | undefined`; also an optional (possibly absent) property. */
  datatype Undefinable<+T> = Undefined | Defined(value: T)

  /** `T | null`. */
  datatype Nullable<+T> = Null | NonNull(value: T)

  /** A call that returns a value, or throws the given failure. */
  datatype Result<+T, +F> = Ok(value: T) | Thrown(failure: F)

  /** The failure thrown by the unsafe extractors: "Expected <expected> but got <actual>". */
  datatype StatusMismatch<+S> = ExpectedButGot(expected: string, actual: S)

  /** JavaScript truthiness of a `string | null`: neither null nor the empty string. */
  predicate Truthy(s: Nullable<string>)
  {
    s.NonNull? && s.value != ""
  }
}
