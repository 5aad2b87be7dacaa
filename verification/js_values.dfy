/** ECMAScript language values, restricted to what the Polymix helpers and their
    example classes use. Numbers are modelled as mathematical integers; function
    objects are opaque tokens; ordinary objects are addresses into a heap
    (see module JsObjects). */
module JsValues {

  datatype Value =
    | Undefined
    | Null
    | Bool(b: bool)
    | Num(n: int)
    | Str(s: string)
    /** A function object (method, closure or class constructor), known only by a name. */
    | Fun(name: string)
    /** An ordinary object, by its heap address. */
    | Ref(addr: nat)

  /** The kinds of exception the modelled code can raise. */
  datatype ErrorKind = TypeError | ReferenceError

  /** The outcome of an operation that may throw (a completion record, in the
      vocabulary of ECMA-262 section 6.2.4), restricted to normal and throw. */
  datatype Completion<+T> = Normal(value: T) | Throw(error: ErrorKind)

  /** The `typeof` operator (ECMA-262 section 13.5.3). */
  function TypeOf(v: Value): (r: string)
    ensures r == "undefined" <==> v.Undefined?
    ensures r == "number" <==> v.Num?
    ensures r == "function" <==> v.Fun?
    ensures r == "object" <==> (v.Null? || v.Ref?)
  {
    match v
    case Undefined => "undefined"
    case Null => "object"
    case Bool(_) => "boolean"
    case Num(_) => "number"
    case Str(_) => "string"
    case Fun(_) => "function"
    case Ref(_) => "object"
  }

  function DigitChar(d: nat): char
    requires d < 10
  {
    "0123456789"[d]
  }

  /** Decimal spelling of a natural number, most significant digit first. */
  function NatToDecimal(n: nat): (r: string)
    ensures |r| > 0
    decreases n
  {
    if n < 10 then [DigitChar(n)] else NatToDecimal(n / 10) + [DigitChar(n % 10)]
  }

  /** The string a template literal substitutes for a value (ToString, ECMA-262
      section 7.1.17). Two simplifications: a function stringifies as its source
      text, which the model does not have, so its token's name stands in for it; and
      every object stringifies as Object.prototype.toString would, "[object Object]",
      since a `toString` an object owns or inherits from elsewhere on its chain is not
      consulted. */
  function Display(v: Value): string
  {
    match v
    case Undefined => "undefined"
    case Null => "null"
    case Bool(b) => if b then "true" else "false"
    case Num(n) => if n < 0 then "-" + NatToDecimal(-n) else NatToDecimal(n)
    case Str(s) => s
    case Fun(name) => name
    case Ref(_) => "[object Object]"
  }
}
