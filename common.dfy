/**
 * Values shared by every module of the model: optional values, results with
 * an error, and the JavaScript notion of a "truthy" value for the few shapes
 * of value the service inspects with `if (x)`.
 */
module Common {

  /** A value that may be absent (`null` / `undefined` in the service). */
  datatype Option<+T> = None | Some(value: T)

  /** The outcome of an operation that may throw. */
  datatype Result<+T, +E> = Ok(value: T) | Err(error: E)

  /** A request field or argument as the service receives it: a string, or
      some other JavaScript value (number, array, object, null, undefined)
      of which only its truthiness matters. */
  datatype Payload = Text(s: string) | NonText(truthy: bool)

  /** `if (x)` on a string that may be missing: missing and `""` are falsy. */
  predicate Truthy(o: Option<string>) {
    o.Some? && o.value != ""
  }

  /** `if (data)` on a request field. */
  predicate PayloadTruthy(d: Payload) {
    match d
    case Text(s) => s != ""
    case NonText(t) => t
  }
}
