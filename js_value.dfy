/**
 * The JavaScript values that flow through the client: filter values handed
 * to the query builders, request bodies handed to JSON.stringify and the
 * parsed JSON of responses.  Numbers are integers only.
 */
module JsValue {
  import opened Wrappers
  import Decimal

  datatype Value =
    | Undef
    | Null
    | Bool(b: bool)
    | Int(i: int)
    | Str(s: string)
    | Arr(elems: seq<Value>)
    | Obj(fields: seq<(string, Value)>)

  /** What calling a method on null or undefined raises. */
  datatype Thrown = TypeError

  /**
   * `value.toString()`: throws on undefined and null, renders numbers in
   * decimal, booleans as words, arrays through `join(",")` and plain
   * objects as "[object Object]".
   */
  function ToString(v: Value): (r: Result<string, Thrown>)
    ensures r.Err? <==> (v.Undef? || v.Null?)
    ensures r.Ok? ==> r.value == Text(v)
    ensures v.Str? ==> r == Ok(v.s)
  {
    match v
    case Undef => Err(TypeError)
    case Null => Err(TypeError)
    case _ => Ok(Text(v))
  }

  /**
   * The string conversion used by `Array.prototype.join` for one element:
   * undefined and null become the empty string, never an exception.
   */
  function Text(v: Value): string
    decreases v, 1
  {
    match v
    case Undef => ""
    case Null => ""
    case Bool(b) => if b then "true" else "false"
    case Int(i) => Decimal.Decimal(i)
    case Str(s) => s
    case Arr(es) => Joined(v, es, |es|)
    case Obj(_) => "[object Object]"
  }

  /** `es[..n].join(",")` for the elements `es` of array `parent`. */
  function Joined(ghost parent: Value, es: seq<Value>, n: nat): string
    requires n <= |es|
    requires forall e | e in es :: e < parent
    decreases parent, 0, n
  {
    if n == 0 then ""
    else
      var last := es[n - 1];
      assert last in es;
      if n == 1 then Text(last) else Joined(parent, es, n - 1) + "," + Text(last)
  }
}
