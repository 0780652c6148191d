/** The generic values a KAS response decodes to: Go's string, []any and map[string]any,
    and nil for an absent map entry. */
module Values {

  datatype Value =
    | Nil
    | Str(chars: string)
    | List(items: seq<Value>)
    | Map(fields: map<string, Value>)
  {
    /** Reading a map entry: nil when the value is no map or has no such key. */
    function Field(key: string): (v: Value) {
      if Map? && key in fields then fields[key] else Nil
    }
  }

  /** asString on a decoded value: a list or a map is "". */
  function AsString(v: Value): string {
    if v.Str? then v.chars else ""
  }

  /** No nil anywhere: every value the decoder produces. */
  predicate Decodable(v: Value) {
    match v
    case Nil => false
    case Str(_) => true
    case List(items) => forall i | 0 <= i < |items| :: Decodable(items[i])
    case Map(fields) => forall k | k in fields :: Decodable(fields[k])
  }
}
