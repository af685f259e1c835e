/** The slice of Python semantics the backend relies on: truthiness, `==`,
    hashing, `int()`, `in`, `len` and the iteration of a parsed YAML value,
    plus the insertion-ordered `dict` keyed by Python equality. */
module Python {
  import opened Wrappers
  import opened Strings
  import opened YamlValue

  function BoolToInt(b: bool): int { if b then 1 else 0 }

  /** `bool(v)`: None, False, 0, "" and empty containers are falsy. */
  predicate Truthy(v: Value) {
    match v
    case Null => false
    case Bool(b) => b
    case Int(i) => i != 0
    case Str(s) => s != ""
    case List(xs) => xs != []
    case Dict(m) => m != map[]
    case Other(t, _) => t
  }

  /** Python `a == b`: `True == 1` and `False == 0`, containers compare element by element. */
  predicate Eq(a: Value, b: Value)
    decreases a
  {
    match a
    case Null => b.Null?
    case Bool(x) => (b.Bool? && b.b == x) || (b.Int? && b.i == BoolToInt(x))
    case Int(x) => (b.Int? && b.i == x) || (b.Bool? && BoolToInt(b.b) == x)
    case Str(s) => b.Str? && b.s == s
    case List(xs) =>
      b.List? && |xs| == |b.items| && forall k :: 0 <= k < |xs| ==> Eq(xs[k], b.items[k])
    case Dict(m) =>
      b.Dict? && m.Keys == b.fields.Keys && forall k :: k in m ==> Eq(m[k], b.fields[k])
    case Other(_, _) => false
  }

  lemma {:induction false} EqSymmetric(a: Value, b: Value)
    ensures Eq(a, b) ==> Eq(b, a)
    decreases a
  {
    if Eq(a, b) {
      match a
      case List(xs) =>
        forall k | 0 <= k < |xs| ensures Eq(b.items[k], xs[k]) { EqSymmetric(xs[k], b.items[k]); }
      case Dict(m) =>
        forall k | k in m ensures Eq(b.fields[k], m[k]) { EqSymmetric(m[k], b.fields[k]); }
      case _ =>
    }
  }

  /** Python `==` is transitive on the values modelled. */
  lemma {:induction false} EqTransitive(a: Value, b: Value, c: Value)
    requires Eq(a, b) && Eq(b, c)
    ensures Eq(a, c)
    decreases a
  {
    match a
    case List(xs) =>
      forall k | 0 <= k < |xs| ensures Eq(xs[k], c.items[k]) {
        EqTransitive(xs[k], b.items[k], c.items[k]);
      }
    case Dict(m) =>
      forall k | k in m ensures Eq(m[k], c.fields[k]) {
        EqTransitive(m[k], b.fields[k], c.fields[k]);
      }
    case _ =>
  }

  /** Lists and dicts cannot be dictionary keys: using one raises `TypeError`. */
  predicate Hashable(v: Value) { !v.List? && !v.Dict? }

  /** The digits of an `int("...")` literal: an optional sign, then at least one ASCII digit. */
  function ParseIntLiteral(s: string): (r: Option<int>)
    ensures r.Some? ==> s != ""
  {
    if s != [] && (s[0] == '-' || s[0] == '+') then
      if |s| > 1 && AllDigits(s[1..]) then
        Some(if s[0] == '-' then 0 - DigitsValue(s[1..]) as int else DigitsValue(s[1..]))
      else None
    else if s != [] && AllDigits(s) then Some(DigitsValue(s))
    else None
  }

  /** `c.isspace()`: the characters `str.strip()` and `int()` remove. */
  predicate IsSpace(c: char) {
    || c == ' ' || '\t' <= c <= '\r' || '\U{1C}' <= c <= '\U{1F}' || c == '\U{85}' || c == '\U{A0}'
    || c == '\U{1680}' || '\U{2000}' <= c <= '\U{200A}' || c == '\U{2028}' || c == '\U{2029}'
    || c == '\U{202F}' || c == '\U{205F}' || c == '\U{3000}'
  }

  function TrimStart(s: string): (r: string)
    ensures |r| <= |s|
    decreases |s|
  {
    if s != [] && IsSpace(s[0]) then TrimStart(s[1..]) else s
  }

  function TrimEnd(s: string): (r: string)
    ensures |r| <= |s|
    decreases |s|
  {
    if s != [] && IsSpace(s[|s| - 1]) then TrimEnd(s[..|s| - 1]) else s
  }

  /** `s.strip()`: white space removed from both ends. */
  function Strip(s: string): string {
    TrimEnd(TrimStart(s))
  }

  /** `int(v)`; `None` stands for the `TypeError` or `ValueError` it raises. */
  function ToInt(v: Value): (r: Option<int>)
    ensures v.Int? ==> r == Some(v.i)
    ensures v.Bool? ==> r == Some(BoolToInt(v.b))
    ensures (v.Null? || v.List? || v.Dict? || v.Other?) ==> r.None?
  {
    match v
    case Int(i) => Some(i)
    case Bool(b) => Some(BoolToInt(b))
    case Str(s) => ParseIntLiteral(Strip(s))
    case _ => None
  }

  /** `needle in container`; a `TypeError` (membership in a number, an unhashable
      key tested against a dict) is reported as `false`, since every caller raises then. */
  predicate In(needle: Value, container: Value) {
    match container
    case List(xs) => exists k :: 0 <= k < |xs| && Eq(needle, xs[k])
    case Str(s) => needle.Str? && Contains(s, needle.s)
    case Dict(m) => needle.Str? && needle.s in m
    case _ => false
  }

  /** `len(v)`; `None` for values without a length. */
  function Len(v: Value): Option<nat> {
    match v
    case List(xs) => Some(|xs|)
    case Str(s) => Some(|s|)
    case Dict(m) => Some(|m|)
    case _ => None
  }

  /** An insertion-ordered Python `dict` whose keys are compared with `Eq`. */
  type Dict<V> = seq<(Value, V)>

  /** The position of `key` among the keys of `d`, if any. */
  function Find<V>(d: Dict<V>, key: Value): (r: Option<nat>)
    ensures r.Some? ==> r.value < |d| && Eq(d[r.value].0, key)
    ensures r.Some? ==> forall j :: 0 <= j < r.value ==> !Eq(d[j].0, key)
    ensures r.None? ==> forall j :: 0 <= j < |d| ==> !Eq(d[j].0, key)
    decreases |d|
  {
    if d == [] then None
    else if Eq(d[0].0, key) then Some(0)
    else match Find(d[1..], key)
      case Some(j) => Some(j + 1)
      case None => None
  }

  /** `d.get(key)`. */
  function Get<V>(d: Dict<V>, key: Value): (r: Option<V>)
    ensures r.Some? <==> exists j :: 0 <= j < |d| && Eq(d[j].0, key)
  {
    match Find(d, key)
    case Some(j) => Some(d[j].1)
    case None => None
  }

  /** `d[key] = value`: an existing key keeps its place and its first spelling, a new key goes last. */
  function Set<V>(d: Dict<V>, key: Value, value: V): (r: Dict<V>)
    ensures Find(d, key).Some? ==> |r| == |d| && r[Find(d, key).value] == (d[Find(d, key).value].0, value)
    ensures Find(d, key).Some? ==> forall j :: 0 <= j < |d| && j != Find(d, key).value ==> r[j] == d[j]
    ensures Find(d, key).None? ==> r == d + [(key, value)]
  {
    match Find(d, key)
    case Some(j) => d[j := (d[j].0, value)]
    case None => d + [(key, value)]
  }

  /** Equal keys are found at the same place. */
  lemma {:induction false} FindEqualKeys<V>(d: Dict<V>, a: Value, b: Value)
    requires Eq(a, b)
    ensures Find(d, a) == Find(d, b)
    decreases |d|
  {
    if d != [] {
      EqSymmetric(a, b);
      if Eq(d[0].0, a) { EqTransitive(d[0].0, a, b); }
      if Eq(d[0].0, b) { EqTransitive(d[0].0, b, a); }
      FindEqualKeys(d[1..], a, b);
    }
  }

  /** `Find` looks only at the keys. */
  lemma {:induction false} FindSameKeys<V>(d: Dict<V>, e: Dict<V>, key: Value)
    requires |d| == |e| && forall j :: 0 <= j < |d| ==> d[j].0 == e[j].0
    ensures Find(d, key) == Find(e, key)
    decreases |d|
  {
    if d != [] {
      FindSameKeys(d[1..], e[1..], key);
    }
  }

  /** After `d[key] = value`, looking up a key equal to `key` gives `value`, and every
      other lookup is unchanged. */
  lemma GetSet<V>(d: Dict<V>, key: Value, value: V, x: Value)
    ensures Get(Set(d, key, value), x) == if Eq(key, x) then Some(value) else Get(d, x)
  {
    if Find(d, key).Some? {
      GetSetPresent(d, key, value, x);
    } else {
      GetSetAbsent(d, key, value, x);
    }
  }

  lemma GetSetPresent<V>(d: Dict<V>, key: Value, value: V, x: Value)
    requires Find(d, key).Some?
    ensures Get(Set(d, key, value), x) == if Eq(key, x) then Some(value) else Get(d, x)
  {
    var j := Find(d, key).value;
    var r := Set(d, key, value);
    FindSameKeys(d, r, x);
    if Eq(key, x) {
      FindEqualKeys(d, key, x);
    } else if Find(d, x).Some? && Find(d, x).value == j {
      EqSymmetric(d[j].0, key);
      EqTransitive(key, d[j].0, x);
    }
  }

  lemma GetSetAbsent<V>(d: Dict<V>, key: Value, value: V, x: Value)
    requires Find(d, key).None?
    ensures Get(Set(d, key, value), x) == if Eq(key, x) then Some(value) else Get(d, x)
  {
    var r := Set(d, key, value);
    assert r == d + [(key, value)];
    if Find(d, x).Some? {
      FindPrefix(d, [(key, value)], x);
      if Eq(key, x) {
        EqSymmetric(key, x);
        EqTransitive(d[Find(d, x).value].0, x, key);
      }
    } else {
      FindAfter(d, [(key, value)], x);
    }
  }

  /** A key absent from `d` is found in `d + tail` only inside `tail`. */
  lemma {:induction false} FindAfter<V>(d: Dict<V>, tail: Dict<V>, x: Value)
    requires Find(d, x).None?
    ensures Find(d + tail, x) == match Find(tail, x) case Some(j) => Some(|d| + j) case None => None
    decreases |d|
  {
    if d != [] {
      assert !Eq(d[0].0, x);
      assert (d + tail)[0] == d[0] && (d + tail)[1..] == d[1..] + tail;
      assert Find(d[1..], x).None?;
      FindAfter(d[1..], tail, x);
    } else {
      assert d + tail == tail;
    }
  }

  /** Appending an entry does not move a key that is already present. */
  lemma {:induction false} FindPrefix<V>(d: Dict<V>, tail: Dict<V>, x: Value)
    requires Find(d, x).Some?
    ensures Find(d + tail, x) == Find(d, x)
    decreases |d|
  {
    if !Eq(d[0].0, x) {
      assert (d + tail)[1..] == d[1..] + tail;
      FindPrefix(d[1..], tail, x);
    }
  }
}
