/**
 * Scalar JSON values as they arrive in request bodies and sit in table
 * columns, with JavaScript's truthiness rules. A field that is absent from a
 * request body (`undefined`) is `None` of an `Option<Value>`.
 */
module Json {
  import opened Wrappers

  datatype Value =
    | Null
    | Bool(b: bool)
    | Num(n: int)
    /** A number with a fractional part, carried as its literal; never zero. */
    | Decimal(literal: string)
    | Str(s: string)

  /** JavaScript truthiness: `null`, `false`, `0` and `''` are falsy. */
  predicate Truthy(v: Value) {
    match v
    case Null => false
    case Bool(b) => b
    case Num(n) => n != 0
    case Decimal(_) => true
    case Str(s) => s != ""
  }

  /** The field is present and truthy, i.e. `!field` is false. */
  predicate Present(field: Option<Value>) {
    field.Some? && Truthy(field.value)
  }

  /** A string-typed input (a URL search parameter, an environment variable) that is set and non-empty. */
  predicate Given(s: Option<string>) {
    s.Some? && s.value != ""
  }

  /**
   * The properties every plain object inherits from `Object.prototype`:
   * looking one of these up on an object literal that lacks it as an own
   * key still finds something.
   */
  const ObjectPrototypeMembers: set<string> := {
    "constructor", "__proto__", "__defineGetter__", "__defineSetter__",
    "__lookupGetter__", "__lookupSetter__", "hasOwnProperty", "isPrototypeOf",
    "propertyIsEnumerable", "toLocaleString", "toString", "valueOf"
  }

  /** The message of the `TypeError` thrown when reading property `name` of `undefined`. */
  function ReadOfUndefined(name: string): string {
    "Cannot read properties of undefined (reading '" + name + "')"
  }
}
