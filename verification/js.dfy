/**
 The few JavaScript value semantics the client code relies on: optional
 fields read from JSON bodies, truthiness and `||`, template-literal
 rendering, and the values a `throw` or a rejected promise can carry.
 */
module Js {

  datatype Option<+T> = None | Some(value: T)

  /**
   A field read from a parsed JSON body: absent (`undefined`), `null`, a
   string, or any other JSON value (a number, a boolean, an array or an
   object). `Other` abstracts such a value to its truthiness (false only for
   `0` and `false`) and its `String()` conversion. Those are all that `||`,
   an error message or a header depend on. A value handed on whole, as to
   the auth store, is identified only up to them.
   */
  datatype Field = Undefined | Null | Str(text: string) | Other(truthy: bool, text: string)

  /** A JSON object as the client reads it: field name to value. */
  type JsonObject = map<string, Field>

  /** Property access `obj.key`: a missing key reads as `undefined`. */
  function Get(obj: JsonObject, key: string): Field {
    if key in obj then obj[key] else Undefined
  }

  /** JavaScript truthiness: `undefined`, `null` and the empty string are falsy; `Other` says for itself. */
  predicate Truthy(f: Field) {
    match f
    case Undefined => false
    case Null => false
    case Str(text) => text != ""
    case Other(truthy, _) => truthy
  }

  /** The expression `a || b`: `a` when it is truthy, otherwise `b`. */
  function Or(a: Field, b: Field): Field {
    if Truthy(a) then a else b
  }

  /** The text a template literal `${f}` or `String(f)` produces. */
  function Render(f: Field): string {
    match f
    case Undefined => "undefined"
    case Null => "null"
    case Str(text) => text
    case Other(_, text) => text
  }

  /** A value that is thrown, or with which a promise rejects. */
  datatype Thrown =
    | ErrorObject(message: string)  // an instance of `Error` (including `TypeError`, `SyntaxError`, `ZodError`)
    | NonError                      // any value that is not an `Error` instance

  /** The settled result of an external step: the value it produced, or what it threw. */
  datatype Outcome<+T> = Ok(value: T) | Throws(reason: Thrown)
}
