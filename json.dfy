/** Already-decoded JSON values, as the Python hub and the JavaScript clients see
    them once a text frame has been parsed. Parsing and printing are not modelled. */
module Json {

  /** A JSON value. `Null` also stands for a missing key (JavaScript's `undefined`,
      Python's `dict.get` returning `None`). */
  datatype Val =
    | Null
    | Bool(b: bool)
    | Num(n: real)
    | Str(s: string)
    | Arr(items: seq<Val>)
    | Object(fields: map<string, Val>)

  /** A decoded message: a JSON object. */
  type Obj = map<string, Val>

  /** `o.k` in JavaScript, `o.get(k)` in Python. */
  function Get(o: Obj, k: string): Val
  {
    if k in o then o[k] else Null
  }

  /** JavaScript truthiness (NaN is not modelled). */
  predicate Truthy(v: Val)
  {
    match v
    case Null => false
    case Bool(b) => b
    case Num(n) => n != 0.0
    case Str(s) => s != ""
    case Arr(_) => true
    case Object(_) => true
  }

  /** JavaScript's `a || b`: the first operand if it is truthy, otherwise the second. */
  function Or(a: Val, b: Val): (r: Val)
    ensures Truthy(r) <==> Truthy(a) || Truthy(b)
    ensures Truthy(a) ==> r == a
    ensures !Truthy(a) ==> r == b
  {
    if Truthy(a) then a else b
  }

  /** The `type` field of a message equals the given tag. */
  predicate HasType(o: Obj, tag: string)
  {
    Get(o, "type") == Str(tag)
  }
}
