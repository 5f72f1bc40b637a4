/** Values exchanged between the service, its callers and the runner. */
module Values {

  /** The usual Some/None datatype. */
  datatype Option<+T> = None | Some(value: T) {
    /** The value, or `default` when absent (Python's `dict.get(key, default)`). */
    function GetOr(default: T): T {
      match this
      case Some(v) => v
      case None => default
    }
  }

  /** Structured data as the YAML and JSON loaders produce it: the job's input
      object and the parsed output of the runner. Floating-point numbers are
      not modelled. */
  datatype Data =
    | Null
    | Bool(b: bool)
    | Number(n: int)
    | Text(s: string)
    | List(items: seq<Data>)
    | Object(fields: map<string, Data>)
}
