/** The JavaScript values that travel in request bodies, query rows and service
    results, with the coercions the controller relies on: truthiness (`!x`,
    `x || y`), property access and conversion to a string. */
module JsValue {
  import opened Strings

  datatype Option<+T> = None | Some(value: T)

  /** A call into a collaborator (a query, a service, the gateway): the value
      it resolved to, or that it threw. */
  datatype Attempt<+T> = Returned(value: T) | Threw

  /** Numbers are integers here: fractions and NaN are not modelled. */
  datatype Value =
    | Undefined
    | Null
    | Bool(b: bool)
    | Num(n: int)
    | Str(s: string)
    | Obj(fields: map<string, Value>)

  /** JavaScript truthiness: `undefined`, `null`, `false`, `0` and `""` are falsy. */
  predicate Truthy(v: Value) {
    match v
    case Undefined => false
    case Null => false
    case Bool(b) => b
    case Num(n) => n != 0
    case Str(s) => s != ""
    case Obj(_) => true
  }

  /** `a || b` */
  function Or(a: Value, b: Value): (r: Value)
    ensures Truthy(a) ==> r == a
    ensures !Truthy(a) ==> r == b
  {
    if Truthy(a) then a else b
  }

  /** A query row or service record: column name to value. */
  type Row = map<string, Value>

  /** A destructured field of an object literal: a missing key reads as `undefined`. */
  function Field(m: map<string, Value>, key: string): Value {
    if key in m then m[key] else Undefined
  }

  /** `v.key` on a value already known to be truthy, and `v?.key`: only objects
      carry the keys the controller reads, any other value (null and undefined
      included, as `?.` gives) yields `undefined`. */
  function Get(v: Value, key: string): Value {
    if v.Obj? then Field(v.fields, key) else Undefined
  }

  /** The own enumerable properties that `{...v}` copies. Strings, whose
      characters would be copied as indexed keys, are not modelled. */
  function Spread(v: Value): map<string, Value> {
    if v.Obj? then v.fields else map[]
  }

  /** String conversion as a template literal `${v}` or `v.toString()` does it. */
  function ToStr(v: Value): string {
    match v
    case Undefined => "undefined"
    case Null => "null"
    case Bool(b) => if b then "true" else "false"
    case Num(n) => IntToStr(n)
    case Str(s) => s
    case Obj(_) => "[object Object]"
  }

  /** Numeric columns read with `x || 0`: a number, or 0 for NULL. */
  function NumberOr0(v: Value): int {
    if v.Num? then v.n else 0
  }

  /** The string form of a number never holds a separator such as '_' or '|'. */
  lemma NumberHasNoSeparator(n: int, sep: char)
    requires sep != '-' && !IsDigit(sep)
    ensures sep !in ToStr(Num(n))
  {
  }
}
