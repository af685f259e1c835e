/** How the editor's JavaScript sees a parsed YAML value: its truthiness, the text
    `String(v)` and template literals write for it, property access, `??`, and the
    equality `Array.prototype.includes` uses. `None` stands for `undefined`. */
module JsValues {
  import opened Wrappers
  import opened Strings
  import opened YamlValue

  /** The names a plain JavaScript object answers from `Object.prototype`: `name in obj`
      holds for them and `obj[name]` is a function even when `obj` was created empty. */
  const InheritedNames: set<string> := {
    "constructor", "hasOwnProperty", "isPrototypeOf", "propertyIsEnumerable", "toLocaleString",
    "toString", "valueOf", "__proto__", "__defineGetter__", "__defineSetter__",
    "__lookupGetter__", "__lookupSetter__"}

  /** `!!v`: `undefined`, `null`, `false`, `0` and `""` are false; arrays and objects,
      even empty ones, are true. */
  predicate Truthy(v: Option<Value>) {
    match v
    case None => false
    case Some(Null) => false
    case Some(Bool(b)) => b
    case Some(Int(i)) => i != 0
    case Some(Str(s)) => s != ""
    case Some(List(_)) => true
    case Some(Dict(_)) => true
    case Some(Other(t, _)) => t
  }

  /** `String(v)` of a defined value: an array joins its elements with commas, writing
      `null` elements as nothing; a mapping is `[object Object]`. */
  function Text(v: Value): string
    decreases v
  {
    match v
    case Null => "null"
    case Bool(b) => if b then "true" else "false"
    case Int(i) => IntToString(i)
    case Str(s) => s
    case List(items) =>
      Join(seq(|items|, k requires 0 <= k < |items| => if items[k].Null? then "" else Text(items[k])), ',')
    case Dict(_) => "[object Object]"
    case Other(_, t) => t
  }

  /** `String(v)`, or `${v}` in a template literal; `undefined` is written out. */
  function ToStr(v: Option<Value>): string {
    if v.None? then "undefined" else Text(v.value)
  }

  /** `v?.key`, and `v.key` on a value that is neither `null` nor `undefined`: only a
      mapping has the fields the editor asks for. */
  function Get(v: Option<Value>, key: string): (r: Option<Value>)
    ensures r.Some? <==> v.Some? && v.value.Dict? && key in v.value.fields
  {
    if v.Some? then Field(v.value, key) else None
  }

  /** `v ?? d`: only `undefined` and `null` are replaced. */
  function Coalesce(v: Option<Value>, d: Value): Value {
    if v.None? || v.value.Null? then d else v.value
  }

  /** The SameValueZero equality of `includes` on values that come out of one parse:
      two arrays or two mappings are distinct objects, and a scalar outside the model
      is taken to equal nothing. */
  predicate SameValueZero(a: Value, b: Value) {
    match (a, b)
    case (Null, Null) => true
    case (Bool(x), Bool(y)) => x == y
    case (Int(x), Int(y)) => x == y
    case (Str(x), Str(y)) => x == y
    case _ => false
  }

  /** `items.includes(x)`: no element of a parsed array is `undefined`. */
  predicate Includes(items: seq<Value>, x: Option<Value>) {
    x.Some? && exists k :: 0 <= k < |items| && SameValueZero(items[k], x.value)
  }
}
