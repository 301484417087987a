/** Python argument values for the driver parameters that accept more than
    one type (`str | float`, `str | int`, an optional resolution, ...), with
    the three Python operations the drivers apply to them: `str(v)`, truth
    testing and `isinstance(v, (int, float))`. */
module Values {
  import opened Text

  /** A float carries the text Python prints for it (`repr`), since the
      drivers only ever format such values, never compute with them. */
  datatype Value =
    | NoneValue
    | BoolValue(b: bool)
    | IntValue(i: int)
    | FloatValue(x: real, repr: string)
    | StrValue(s: string)

  /** `str(v)`. */
  function Str(v: Value): string
  {
    match v
    case NoneValue => "None"
    case BoolValue(b) => if b then "True" else "False"
    case IntValue(i) => IntToString(i)
    case FloatValue(_, repr) => repr
    case StrValue(s) => s
  }

  /** Python truth testing: None, False, zero and the empty string are false. */
  predicate Truthy(v: Value)
  {
    match v
    case NoneValue => false
    case BoolValue(b) => b
    case IntValue(i) => i != 0
    case FloatValue(x, _) => x != 0.0
    case StrValue(s) => s != ""
  }

  /** `isinstance(v, int)`; bool is a subclass of int in Python. */
  predicate IsInt(v: Value)
  {
    v.BoolValue? || v.IntValue?
  }

  /** `isinstance(v, (int, float))`. */
  predicate IsNumber(v: Value)
  {
    IsInt(v) || v.FloatValue?
  }

  /** The numeric value of an int, bool or float. */
  function Number(v: Value): real
    requires IsNumber(v)
  {
    match v
    case BoolValue(b) => if b then 1.0 else 0.0
    case IntValue(i) => i as real
    case FloatValue(x, _) => x
  }

  /** `str(float(v))` for an int, bool or float. */
  function FloatStr(v: Value): string
    requires IsNumber(v)
  {
    match v
    case BoolValue(b) => if b then "1.0" else "0.0"
    case IntValue(i) => IntToString(i) + ".0"
    case FloatValue(_, repr) => repr
  }

  /** Upper-cases a string argument and leaves other values alone, as
      `v.upper() if isinstance(v, str) else v` does. */
  function UpperIfStr(v: Value): (r: Value)
    ensures r.StrValue? <==> v.StrValue?
    ensures IsInt(r) <==> IsInt(v)
    ensures IsNumber(r) <==> IsNumber(v)
  {
    if v.StrValue? then StrValue(Upper(v.s)) else v
  }
}
