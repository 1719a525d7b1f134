/** The JSON values stored in the settings and cache files. */
module Json {
  import opened Text

  /** A decoded JSON value. Floating-point numbers are carried as the text
      Python's `str()` gives for them, since the plugin only ever formats
      them (coordinates) and never computes with them. */
  datatype Value =
    | Null
    | Bool(b: bool)
    | Int(i: int)
    | Num(text: string)
    | Str(s: string)
    | Arr(items: seq<Value>)
    | Obj(fields: map<string, Value>)

  /** The text `'{}'.format(v)` produces for a scalar value. */
  function Show(v: Value): string
  {
    match v
    case Null => "None"
    case Bool(b) => if b then "True" else "False"
    case Int(i) => IntToString(i)
    case Num(t) => t
    case Str(s) => s
    case Arr(_) => "[...]"
    case Obj(_) => "{...}"
  }
}
