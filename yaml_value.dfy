/** The parsed form of a YAML (or JSON) document, as both the Python backend
    (`yaml.safe_load`) and the editor (`js-yaml`) see it. Parsing itself is
    not modelled: every operation that parses text takes the parser as a
    function parameter returning one of these trees. */
module YamlValue {
  import opened Wrappers

  datatype Value =
    | Null
    | Bool(b: bool)
    | Int(i: int)
    | Str(s: string)
    | List(items: seq<Value>)
    | Dict(fields: map<string, Value>)
      /** A scalar of a type outside this model (a float, a timestamp, ...): only its
          truthiness and the text JavaScript writes for it are known; it equals nothing
          and it is not an integer. */
    | Other(truthy: bool, text: string)

  /** The value of `key` when `v` is a mapping that holds it. */
  function Field(v: Value, key: string): (r: Option<Value>)
    ensures r.Some? <==> v.Dict? && key in v.fields
  {
    if v.Dict? && key in v.fields then Some(v.fields[key]) else None
  }

  /** Python's `d.get(key)`: `None` when the key is missing. */
  function FieldOrNull(v: Value, key: string): Value {
    Field(v, key).GetOr(Null)
  }

  predicate IsScalar(v: Value) { v.Null? || v.Bool? || v.Int? || v.Str? || v.Other? }
}
