/** Values that travel through the logging core: the fields of a log entry,
    the `extra` mappings callers attach and the positional `args` of a record. */
module JsonValues {

  datatype Option<+T> = None | Some(value: T)

  /** A Python value as the logging core sees it. `Dict` is a dict with string
      keys (the only kind this model represents), `Tuple` is a positional
      argument tuple such as the empty `()`, `Null` is `None`. */
  datatype Value =
    | Str(s: string)
    | Int(i: int)
    | Dict(entries: map<string, Value>)
    | Tuple(items: seq<Value>)
    | Null

  /** The Python test `isinstance(v, dict) and key in v`. */
  predicate IsDictWith(v: Value, key: string)
  {
    v.Dict? && key in v.entries
  }
}
