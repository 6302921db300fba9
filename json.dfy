/** The JavaScript values a provider payload can hold once `response.json()` has parsed it,
    together with the two pieces of JavaScript semantics the adapters rely on: truthiness
    (`!x`, `x || y`) and property reads (`x.key`, `x?.key`), which throw a TypeError on
    `null` and `undefined`. */
module Json {

  datatype Value =
    | Undefined
    | Null
    | Bool(b: bool)
    | Num(n: real)
    | Str(s: string)
    | Arr(items: seq<Value>)
    | Obj(fields: map<string, Value>)

  /** The outcome of an expression that may throw a TypeError. */
  datatype Result<+T> = Ok(value: T) | TypeError(message: string) {

    predicate IsFailure() {
      TypeError?
    }

    /** Only used on a TypeError; total so that a read that cannot throw needs no proof. */
    function PropagateFailure<U>(): Result<U> {
      TypeError(if TypeError? then message else "")
    }

    function Extract(): T
      requires Ok?
    {
      value
    }
  }

  /** JavaScript truthiness: `undefined`, `null`, `false`, `0` and `""` are falsy.
      (NaN cannot occur in parsed JSON.) */
  predicate Truthy(v: Value): (b: bool)
    ensures !b <==> v in {Undefined, Null, Bool(false), Num(0.0), Str("")}
  {
    match v
    case Undefined => false
    case Null => false
    case Bool(b) => b
    case Num(n) => n != 0.0
    case Str(s) => s != ""
    case Arr(_) => true
    case Obj(_) => true
  }

  predicate IsNullish(v: Value) {
    v.Undefined? || v.Null?
  }

  /** `Array.isArray(v)` */
  predicate IsArray(v: Value) {
    v.Arr?
  }

  /** The value of `v.key` for a `v` that is neither null nor undefined: an own field of
      an object, otherwise `undefined`. The keys the core reads are never names of
      properties that strings, arrays or the object prototype carry. */
  function Field(v: Value, key: string): Value {
    if v.Obj? && key in v.fields then v.fields[key] else Undefined
  }

  /** V8's message for reading a property of null or undefined. */
  function ReadError(v: Value, key: string): string {
    "Cannot read properties of " + (if v.Null? then "null" else "undefined") + " (reading '" + key + "')"
  }

  /** `v.key`: throws exactly when `v` is null or undefined. */
  function Get(v: Value, key: string): (r: Result<Value>)
    ensures r.TypeError? <==> IsNullish(v)
    ensures r.TypeError? ==> r.message == ReadError(v, key)
    ensures r.Ok? ==> r.value == Field(v, key)
  {
    if IsNullish(v) then TypeError(ReadError(v, key)) else Ok(Field(v, key))
  }

  /** `v?.key`: never throws; `undefined` when `v` is null or undefined. */
  function OptionalGet(v: Value, key: string): (r: Value)
    ensures IsNullish(v) ==> r == Undefined
    ensures !IsNullish(v) ==> Get(v, key) == Ok(r)
  {
    if IsNullish(v) then Undefined else Field(v, key)
  }

  /** `v || fallback` */
  function Or(v: Value, fallback: Value): (r: Value)
    ensures Truthy(r) <==> Truthy(v) || Truthy(fallback)
    ensures r == v || r == fallback
    ensures Truthy(v) ==> r == v
  {
    if Truthy(v) then v else fallback
  }
}
