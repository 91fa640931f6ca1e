/** JavaScript values as the fetch hook sees them: what a producer resolves
    with, what the cache stores, what a producer throws. */
module JsValues {

  datatype Option<+T> = None | Some(value: T)

  /** A JavaScript value. Numbers are kept as reals plus NaN; objects,
      arrays and functions are opaque references. */
  datatype Value =
    | Undefined
    | Null
    | Boolean(b: bool)
    | Number(x: real)
    | NaN
    | BigInt(i: int)
    | Str(s: string)
    | Object(ref: nat)

  /** JavaScript's ToBoolean conversion, which is what `if (value)` tests:
      undefined, null, false, 0, -0, NaN, 0n and "" are falsy, every other
      value (every object included) is truthy. */
  predicate Truthy(v: Value)
  {
    match v
    case Undefined => false
    case Null => false
    case Boolean(b) => b
    case Number(x) => x != 0.0
    case NaN => false
    case BigInt(i) => i != 0
    case Str(s) => s != ""
    case Object(_) => true
  }

  /** An instance of the built-in `Error` class (or of a subclass). */
  datatype ErrorValue = ErrorValue(name: string, message: string)

  /** What a producer can throw: an `Error` instance, or any other value. */
  datatype Thrown =
    | ThrownError(err: ErrorValue)
    | ThrownOther(other: Value)

  /** How the awaited producer call settles. */
  datatype Outcome =
    | Resolved(value: Value)
    | Rejected(thrown: Thrown)

  /** The `catch` clause: `err instanceof Error` decides whether the thrown
      value reaches the error slot; anything else is dropped. */
  function Caught(t: Thrown): (r: Option<ErrorValue>)
    ensures r.Some? <==> t.ThrownError?
    ensures r.Some? ==> r.value == t.err
  {
    match t
    case ThrownError(e) => Some(e)
    case ThrownOther(_) => None
  }

  /** The falsy values the cache check treats as a miss even when stored. */
  lemma FalsyCachedValues()
    ensures !Truthy(Undefined) && !Truthy(Null) && !Truthy(Boolean(false))
    ensures !Truthy(Number(0.0)) && !Truthy(NaN) && !Truthy(BigInt(0)) && !Truthy(Str(""))
    ensures forall r: nat :: Truthy(Object(r))
  {
  }
}
