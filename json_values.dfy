/**
 * Values as they arrive in a JSON request body and as Python's
 * `dict.get` and JavaScript's truthiness see them.
 */
module JsonValues {

  datatype Option<+T> = None | Some(value: T)

  /** One key of a JSON object: missing, present with `null`, or present with a value. */
  datatype Field<+T> = Absent | Null | Value(v: T)

  /** A string field is truthy exactly when present and non-empty, in Python (`not s`) and in JavaScript (`s ||`). */
  predicate TruthyString(f: Field<string>) {
    f.Value? && f.v != ""
  }

  /** Python's `not n` is false exactly for a present, non-zero number. */
  predicate TruthyInt(f: Field<int>) {
    f.Value? && f.v != 0
  }

  /** JavaScript's `!x` is false for the boolean `true` only (missing and null are falsy). */
  predicate TruthyBool(f: Field<bool>) {
    f == Value(true)
  }

  /**
   * `data.get(key, default)`: the default only when the key is missing;
   * a key present with `null` gives None.
   */
  function GetOr<T>(f: Field<T>, default: T): Option<T> {
    match f
    case Absent => Some(default)
    case Null => None
    case Value(v) => Some(v)
  }

  /**
   * The JSON envelope every API response carries: a `success` flag, an
   * optional `error` message, and the rest of the body.
   */
  datatype Envelope<+P> = Envelope(success: Field<bool>, error: Field<string>, body: P)
}
