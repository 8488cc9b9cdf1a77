/** The values of the host language that flow through the memoization core,
    the errors a call can throw, and the functions the selectors are built from. */
module JsValues {

  datatype Option<+T> = None | Some(value: T)

  /** A value of the host language. Objects and arrays carry the identity `id`
      the host gave them when they were allocated: two of them are the same
      object exactly when their identities agree, whatever their contents.
      Numbers are integers (no NaN, no negative zero). */
  datatype Value =
    | Undefined
    | Null
    | Bool(b: bool)
    | Num(n: int)
    | Str(s: string)
    | Obj(id: nat, fields: map<string, Value>)
    | Arr(id: nat, items: seq<Value>)

  /** What a call can throw: a TypeError raised by the host, or a value thrown
      by one of the caller's functions. */
  datatype Error = TypeError(message: string) | Thrown(value: Value)

  /** The outcome of a call that can throw. */
  datatype Result<+T> = Ok(value: T) | Throw(error: Error)

  /** Calling something that is not a function (`undefined` from `pop()` on an
      empty list, or an array). */
  const NotAFunction := TypeError("resultFunc is not a function")

  /** Reading an index or a property of `undefined` or `null`. */
  const NullishAccess := TypeError("Cannot read properties of undefined or null")

  /** A function as the selectors call it: with the positional argument list,
      returning a value or throwing. */
  type Fn = seq<Value> -> Result<Value>

  /** `args[0]`: the first argument, `undefined` when there is none. */
  function FirstArg(args: seq<Value>): Value
  {
    if |args| > 0 then args[0] else Undefined
  }

  /** `typeof v === 'object'` for a non-null value: only these can be the key
      of an identity-keyed cache. */
  predicate IsObject(v: Value)
  {
    v.Obj? || v.Arr?
  }

  /** `v[0]`: the first element of an array, the first character of a string,
      the own property "0" of an object, `undefined` on other primitives,
      and a TypeError on `undefined` and `null`. */
  function Index0(v: Value): (r: Result<Value>)
    ensures r.Throw? <==> v.Undefined? || v.Null?
    ensures v.Arr? && |v.items| > 0 ==> r == Ok(v.items[0])
  {
    match v
    case Undefined => Throw(NullishAccess)
    case Null => Throw(NullishAccess)
    case Arr(_, items) => Ok(if |items| > 0 then items[0] else Undefined)
    case Str(s) => Ok(if |s| > 0 then Str([s[0]]) else Undefined)
    case Obj(_, fields) => Ok(if "0" in fields then fields["0"] else Undefined)
    case _ => Ok(Undefined)
  }
}
