/**
 * The dynamically typed values that reach the backend as tool arguments: the JSON object
 * a model puts in a `tool_use` block, decoded into Python `int`, `float`, `str`, `bool`,
 * `None`, or a `list`/`dict`.
 */
module PyValues {
  import opened Text

  /**
   * A `float` carries the text `str()` gives for it, since Python's shortest round-trip
   * rendering of a binary float is not modelled. A `list` or `dict` is only ever printed or
   * rejected here, so it carries its type name and its `str()` text.
   */
  datatype Value =
    | Int(i: int)
    | Float(x: real, text: string)
    | Str(s: string)
    | Bool(b: bool)
    | Null
    | Compound(typeName: string, text: string)

  /** `type(v).__name__` */
  function TypeName(v: Value): string
  {
    match v
    case Int(_) => "int"
    case Float(_, _) => "float"
    case Str(_) => "str"
    case Bool(_) => "bool"
    case Null => "NoneType"
    case Compound(t, _) => t
  }

  /** `str(v)`, which is also what an f-string placeholder `{v}` shows. */
  function PyStr(v: Value): string
  {
    match v
    case Int(i) => IntToString(i)
    case Float(_, text) => text
    case Str(s) => s
    case Bool(b) => if b then "True" else "False"
    case Null => "None"
    case Compound(_, text) => text
  }

  /** `d.get(key, default)` */
  function Get(d: map<string, Value>, key: string, default: Value): Value
  {
    if key in d then d[key] else default
  }

  /** `d.get(key, default)` on a dict of strings. */
  function GetText(d: map<string, string>, key: string, default: string): string
  {
    if key in d then d[key] else default
  }

  /** Whether v can be a dict key or be looked up in one (lists and dicts cannot). */
  predicate Hashable(v: Value) { !v.Compound? }
}
