/** The JavaScript values that appear in a filter: what `if (x)` and `${x}` make of them. */
module Values {
  import opened Strings

  /** A filter value: a string, an integer, a boolean or `null`. */
  datatype Value = Text(s: string) | Number(n: int) | Boolean(b: bool) | Null

  /** JavaScript truthiness: the empty string, 0, `false` and `null` are falsy. */
  predicate Truthy(v: Value) {
    match v
    case Text(s) => s != ""
    case Number(n) => n != 0
    case Boolean(b) => b
    case Null => false
  }

  /** The text a template literal `${v}` produces; a truthy value never renders as "". */
  function Interpolate(v: Value): (r: string)
    ensures Truthy(v) ==> r != ""
    ensures v.Text? ==> r == v.s
  {
    match v
    case Text(s) => s
    case Number(n) => IntToDecimal(n)
    case Boolean(b) => if b then "true" else "false"
    case Null => "null"
  }
}
