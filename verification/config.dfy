/**
 * Viewer configurations as the workspace sees them: JSON-like objects from
 * key to value. Only the value kinds the workspace inspects are told apart:
 * column-name arrays (`row-pivots`, `column-pivots`) and filter arrays
 * (`filters`, each `[column, operator, operand]`).
 */
module Config {

  datatype Value =
    | Undefined
    | Null
    | Bool(b: bool)
    | Num(n: int)
    | Str(s: string)
    | Columns(names: seq<string>)
    | FilterList(filters: seq<Filter>)

  /** A filter triple `[column, operator, operand]`. */
  datatype Filter = Filter(column: string, op: string, operand: Value)

  type Config = map<string, Value>

  /** JavaScript truthiness. */
  predicate Truthy(v: Value)
  {
    match v
    case Undefined => false
    case Null => false
    case Bool(b) => b
    case Num(n) => n != 0
    case Str(s) => s != ""
    case Columns(_) => true
    case FilterList(_) => true
  }

  /** `config[key]`; a missing key reads as `undefined`. */
  function Get(c: Config, key: string): Value
  {
    if key in c then c[key] else Undefined
  }

  /** `config[key] || []` read as a list of column names. */
  function ColumnsOr(c: Config, key: string): seq<string>
  {
    match Get(c, key)
    case Columns(names) => names
    case _ => []
  }

  /** `config.filters || []` */
  function FiltersOf(c: Config): seq<Filter>
  {
    match Get(c, "filters")
    case FilterList(fs) => fs
    case _ => []
  }
}
