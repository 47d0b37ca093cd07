/** The host-language values and errors the accessor works with.
    A state object is a flat record from field names to values; reading a
    name the record does not have yields `undefined`, as a property read does. */
module JsValues {

  datatype Value = Undefined | Null | Bool(b: bool) | Num(n: int) | Str(s: string)

  /** A flat state record: field name to value. */
  type State = map<string, Value>

  /** The arguments a caller passes after the curried-away first parameter. */
  type Args = seq<Value>

  /** The `TypeError`s the core can raise, in strict mode. */
  datatype Error =
    | NotCallable(name: string)       // calling a property that is not a function
    | NoSetter(name: string)          // assigning to a get-only property
    | NotWritable(name: string)       // assigning to a `writable: false` property
    | NotExtensible(name: string)     // adding a property to a sealed object
    | NotConfigurable(name: string)   // deleting a property of a sealed object
    | StackExhausted                  // the host's call stack overflowed
    | Thrown(reason: Value)           // an exception a mutation raised

  datatype Outcome = Pass | Fail(error: Error)

  /** Property read on a plain record: a missing field reads as `undefined`. */
  function Lookup(s: map<string, Value>, k: string): Value
  {
    if k in s then s[k] else Undefined
  }

  /** The i-th argument, `undefined` when the caller passed fewer. */
  function Arg(args: Args, i: nat): Value
  {
    if i < |args| then args[i] else Undefined
  }
}
