/**
 * The JavaScript values the handlers and pages read out of parsed JSON bodies
 * and database rows, with the three operations the code applies to them:
 * truthiness (`!x`, `x || y`), optional property access (`x?.name`) and
 * conversion to a string inside a template literal (`${x}`).
 */
module Json {
  import opened Text
  import opened Wrappers

  /** A scalar or an object; numbers are restricted to integers. */
  datatype Value =
    | Undefined
    | Null
    | Bool(b: bool)
    | Num(n: int)
    | Str(s: string)
    | Obj(fields: map<string, Value>)

  /** JavaScript truthiness: `undefined`, `null`, `false`, `0` and `""` are falsy. */
  predicate Truthy(v: Value) {
    match v
    case Undefined => false
    case Null => false
    case Bool(b) => b
    case Num(n) => n != 0
    case Str(s) => s != ""
    case Obj(_) => true
  }

  /** `v?.key`: the field of an object, `undefined` for a missing field or a non-object. */
  function Member(v: Value, key: string): Value
  {
    match v
    case Obj(m) => if key in m then m[key] else Undefined
    case _ => Undefined
  }

  /** `${v}` in a template literal (an object prints as `[object Object]`). */
  function Interpolate(v: Value): string
  {
    match v
    case Undefined => "undefined"
    case Null => "null"
    case Bool(b) => if b then "true" else "false"
    case Num(n) => IntToString(n)
    case Str(s) => s
    case Obj(_) => "[object Object]"
  }

  /** `${v || fallback}`: the value when it is truthy, the fallback text otherwise. */
  function InterpolateOr(v: Value, fallback: string): string
  {
    if Truthy(v) then Interpolate(v) else fallback
  }

  /** A present optional string as a JSON string, an absent one as `null`. */
  function OptionalStr(s: Option<string>): Value
  {
    match s
    case Some(x) => Str(x)
    case None => Null
  }
}
