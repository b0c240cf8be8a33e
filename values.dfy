/**
 * The Python values that flow through option resolution: what argparse produces,
 * what a JSON options file holds, and `pathlib` paths. Floats are kept as their
 * `repr` text, since the wrapper only interpolates them into command lines.
 */
module Values {
  import Decimal
  import Paths

  datatype Value =
    | NoneVal
    | Bool(b: bool)
    | Int(i: int)
    | Float(repr: string)
    | Str(s: string)
    | PathVal(path: Paths.PurePath)

  /** Python truthiness: None, False, 0, 0.0 and "" are false; every Path is true. */
  predicate Truthy(v: Value)
  {
    match v
    case NoneVal => false
    case Bool(b) => b
    case Int(i) => i != 0
    case Float(r) => r != "0.0" && r != "-0.0"
    case Str(s) => s != ""
    case PathVal(_) => true
  }

  /** `str(v)`, which is what an f-string interpolates. */
  function Show(v: Value): string
  {
    match v
    case NoneVal => "None"
    case Bool(b) => if b then "True" else "False"
    case Int(i) => Decimal.IntToString(i)
    case Float(r) => r
    case Str(s) => s
    case PathVal(p) => Paths.Render(p)
  }

  /** `Path(v) if isinstance(v, str) else v`, the coercion each Yolox method applies to its path arguments. */
  function AsPath(v: Value): Value
  {
    if v.Str? then PathVal(Paths.Parse(v.s)) else v
  }
}
