/** The error banner of the API provider (`APIProvider`): an error response body
    is flattened into one `Key: message` line per message (`formatErrors` and
    its recursive `traverseErrors`), capped at 500 characters, and stored as the
    last error, made different from the previous one so that the banner shows
    again. */
module ApiErrors {
  import opened Wrappers
  import opened Strings

  /** A JSON value as the browser parses a response body. Object members are listed
      in the order `for..in` visits them; numbers are integers here. */
  datatype Json =
    | JNull
    | JBool(b: bool)
    | JNum(n: int)
    | JStr(s: string)
    | JArr(items: seq<Json>)
    | JObj(entries: seq<(string, Json)>)

  /** JavaScript truthiness of a JSON value. */
  predicate JsTruthy(j: Json) {
    match j
    case JNull => false
    case JBool(b) => b
    case JNum(n) => n != 0
    case JStr(s) => s != ""
    case _ => true
  }

  /** The text a template literal writes for `j`: arrays are joined with commas,
      `null` elements writing nothing, and every object writes `[object Object]`. */
  function JsText(j: Json): string
    decreases j
  {
    match j
    case JNull => "null"
    case JBool(b) => if b then "true" else "false"
    case JNum(n) => IntToString(n)
    case JStr(s) => s
    case JArr(xs) => Join(seq(|xs|, k requires 0 <= k < |xs| => if xs[k].JNull? then "" else JsText(xs[k])), ',')
    case JObj(_) => "[object Object]"
  }

  /** `capitalizeFirstLetter`: the first character upper-cased, the rest unchanged. */
  function Capitalize(s: string): (r: string)
    ensures |r| == |s|
    ensures s != [] ==> r[0] == UpperChar(s[0]) && r[1..] == s[1..]
  {
    if s == [] then "" else [UpperChar(s[0])] + s[1..]
  }

  /** Capitalising twice is capitalising once. */
  lemma CapitalizeIdempotent(s: string)
    ensures Capitalize(Capitalize(s)) == Capitalize(s)
  {
  }

  /** The key path of a member: `parent.key`, or `key` alone at the top (an empty
      parent is falsy). */
  function KeyPath(parent: string, key: string): string {
    if parent == "" then key else parent + "." + key
  }

  function Line(key: string, message: Json): string {
    Capitalize(key) + ": " + JsText(message)
  }

  /** The lines `traverseErrors` pushes for the members of object `obj` from member
      `i` on, when the object's key path is `parent`. */
  function MemberLines(obj: Json, i: nat, parent: string): seq<string>
    requires obj.JObj? && i <= |obj.entries|
    decreases obj, |obj.entries| - i, 1
  {
    if i == |obj.entries| then [] else EntryLines(obj, i, parent) + MemberLines(obj, i + 1, parent)
  }

  /** The lines for member `i` of `obj`: one per element of an array, the lines of a
      nested object under the longer key path, or one line for anything else. */
  function EntryLines(obj: Json, i: nat, parent: string): seq<string>
    requires obj.JObj? && i < |obj.entries|
    decreases obj, |obj.entries| - i, 0
  {
    var (key, value) := obj.entries[i];
    var newKey := KeyPath(parent, key);
    match value
    case JArr(xs) => seq(|xs|, k requires 0 <= k < |xs| => Line(newKey, xs[k]))
    case JObj(_) => MemberLines(value, 0, newKey)
    case _ => [Line(newKey, value)]
  }

  /** The members `for..in` visits at the top, as an object: an object's own members,
      or an array's indices written in decimal. */
  function TopLevel(j: Json): (r: Json)
    requires IsStructured(j)
    ensures r.JObj?
  {
    match j
    case JObj(es) => j
    case JArr(xs) => JObj(seq(|xs|, k requires 0 <= k < |xs| => (NatToString(k), xs[k])))
  }

  /** `typeof parsed === 'object' && parsed !== null`: an object or an array. */
  predicate IsStructured(j: Json) { j.JObj? || j.JArr? }

  /** `formatErrors(errors, fallback)`: an absent, null or primitive payload gives the
      fallback back; an object or array gives its lines joined with newlines. */
  function FormatErrors(errors: Option<Json>, fallback: Json): (r: Json)
    ensures errors.None? || !IsStructured(errors.value) ==> r == fallback
    ensures errors.Some? && IsStructured(errors.value) ==> r.JStr?
  {
    if errors.None? || !IsStructured(errors.value) then fallback
    else JStr(Join(MemberLines(TopLevel(errors.value), 0, ""), '\n'))
  }

  // ---------------------------------------------------------------------------
  // The recursive walk, pushing into a shared list of messages
  // ---------------------------------------------------------------------------

  /** `traverseErrors(errorObj, parentKey)`, appending to `messages`. */
  method TraverseErrors(errorObj: Json, parentKey: string, messages: seq<string>)
    returns (out: seq<string>)
    requires errorObj.JObj?
    ensures out == messages + MemberLines(errorObj, 0, parentKey)
    decreases errorObj
  {
    out := messages;
    var i := 0;
    while i < |errorObj.entries|
      invariant 0 <= i <= |errorObj.entries|
      invariant out + MemberLines(errorObj, i, parentKey) == messages + MemberLines(errorObj, 0, parentKey)
    {
      var entry := errorObj.entries[i];
      var newKey := KeyPath(parentKey, entry.0);
      ghost var before := out;
      if entry.1.JArr? {
        out := PushEach(newKey, entry.1.items, out);
      } else if entry.1.JObj? {
        out := TraverseErrors(entry.1, newKey, out);
      } else {
        out := out + [Line(newKey, entry.1)];
      }
      MemberLinesStep(errorObj, i, parentKey, before, out);
      i := i + 1;
    }
  }

  /** Appending member `i`'s lines moves the walk on by one member. */
  lemma MemberLinesStep(obj: Json, i: nat, parent: string, before: seq<string>, after: seq<string>)
    requires obj.JObj? && i < |obj.entries|
    requires after == before + EntryLines(obj, i, parent)
    ensures after + MemberLines(obj, i + 1, parent) == before + MemberLines(obj, i, parent)
  {
  }

  /** `errorObj[key].forEach(message => errorMessages.push(...))`. */
  method PushEach(key: string, xs: seq<Json>, messages: seq<string>) returns (out: seq<string>)
    ensures out == messages + seq(|xs|, k requires 0 <= k < |xs| => Line(key, xs[k]))
  {
    ghost var lines := seq(|xs|, k requires 0 <= k < |xs| => Line(key, xs[k]));
    out := messages;
    var k := 0;
    while k < |xs|
      invariant 0 <= k <= |xs|
      invariant out == messages + lines[..k]
    {
      assert lines[..k + 1] == lines[..k] + [Line(key, xs[k])];
      out := out + [Line(key, xs[k])];
      k := k + 1;
    }
    assert lines[..k] == lines;
  }

  /** `formatErrors`, walking the payload with `TraverseErrors`. */
  method FormatErrorsWalk(errors: Option<Json>, fallback: Json) returns (r: Json)
    ensures r == FormatErrors(errors, fallback)
  {
    if errors.None? || !IsStructured(errors.value) {
      return fallback;
    }
    var messages := TraverseErrors(TopLevel(errors.value), "", []);
    assert messages == MemberLines(TopLevel(errors.value), 0, "");
    return JStr(Join(messages, '\n'));
  }

  // ---------------------------------------------------------------------------
  // What the flattening promises
  // ---------------------------------------------------------------------------

  /** The number of messages in the members of `obj` from member `i` on: one per array
      element, one per primitive, and the messages of nested objects. */
  function MessageCount(obj: Json, i: nat): nat
    requires obj.JObj? && i <= |obj.entries|
    decreases obj, |obj.entries| - i
  {
    if i == |obj.entries| then 0
    else
      var value := obj.entries[i].1;
      (match value
       case JArr(xs) => |xs|
       case JObj(_) => MessageCount(value, 0)
       case _ => 1)
      + MessageCount(obj, i + 1)
  }

  /** One line per array element plus one per primitive leaf. */
  lemma {:induction false} LineCount(obj: Json, i: nat, parent: string)
    requires obj.JObj? && i <= |obj.entries|
    ensures |MemberLines(obj, i, parent)| == MessageCount(obj, i)
    decreases obj, |obj.entries| - i
  {
    if i < |obj.entries| {
      LineCount(obj, i + 1, parent);
      var (key, value) := obj.entries[i];
      if value.JObj? {
        LineCount(value, 0, KeyPath(parent, key));
      }
    }
  }

  /** An array member gives one `Key: message` line per element, in order. */
  lemma ArrayMemberLines(key: string, xs: seq<Json>, k: nat)
    requires k < |xs|
    ensures |MemberLines(JObj([(key, JArr(xs))]), 0, "")| == |xs|
    ensures MemberLines(JObj([(key, JArr(xs))]), 0, "")[k] == Capitalize(key) + ": " + JsText(xs[k])
  {
    assert MemberLines(JObj([(key, JArr(xs))]), 1, "") == [];
  }

  /** A nested object is walked with the dotted key `parent.child`. */
  lemma NestedMemberLines(parent: string, child: string, v: Json)
    requires parent != "" && !v.JArr? && !v.JObj?
    ensures MemberLines(JObj([(parent, JObj([(child, v)]))]), 0, "") == [Capitalize(parent + "." + child) + ": " + JsText(v)]
  {
    var inner := JObj([(child, v)]);
    var outer := JObj([(parent, inner)]);
    assert MemberLines(inner, 1, parent) == [];
    assert MemberLines(inner, 0, parent) == EntryLines(inner, 0, parent) == [Line(parent + "." + child, v)];
    assert MemberLines(outer, 1, "") == [];
    assert MemberLines(outer, 0, "") == EntryLines(outer, 0, "") + [];
  }

  /** A payload of one primitive member yields exactly one line. */
  lemma PrimitiveMemberLine(key: string, v: Json)
    requires !v.JArr? && !v.JObj?
    ensures FormatErrors(Some(JObj([(key, v)])), JNull) == JStr(Capitalize(key) + ": " + JsText(v))
  {
    var obj := JObj([(key, v)]);
    assert MemberLines(obj, 1, "") == [];
    assert MemberLines(obj, 0, "") == EntryLines(obj, 0, "") + [] == [Line(key, v)];
  }

  // ---------------------------------------------------------------------------
  // parseError and the stored last error
  // ---------------------------------------------------------------------------

  /** The longest error the banner keeps. */
  const MaxErrorLength: nat := 500

  /** `s.substring(0, 500)`: out-of-range ends are clamped. */
  function Truncate(s: string): (r: string)
    ensures |r| <= MaxErrorLength && r <= s
    ensures |s| <= MaxErrorLength ==> r == s
    ensures |s| > MaxErrorLength ==> r == s[..MaxErrorLength]
  {
    if |s| <= MaxErrorLength then s else s[..MaxErrorLength]
  }

  /** The error `parseError` stores, given the response body `data` (absent when there
      is no response), the text `JSON.stringify(error)` and the previously stored error.
      `None` when the formatted error is not a string (a truthy number or boolean body),
      so that `substring` throws and nothing is stored. */
  function NextError(data: Option<Json>, errorText: string, last: Option<string>): (r: Option<string>)
    ensures r.Some? ==> Some(r.value) != last
    ensures r.Some? ==> |r.value| <= MaxErrorLength + 1
    ensures r.None? <==> data.Some? && JsTruthy(data.value) && !IsStructured(data.value) && !data.value.JStr?
    ensures var fallback := if data.Some? && JsTruthy(data.value) then data.value else JStr(errorText);
      var f := FormatErrors(data, fallback);
      f.JStr? ==> r == Some(if last == Some(Truncate(f.s)) then Truncate(f.s) + " " else Truncate(f.s))
  {
    var fallback := if data.Some? && JsTruthy(data.value) then data.value else JStr(errorText);
    match FormatErrors(data, fallback)
    case JStr(s) =>
      var t := Truncate(s);
      Some(if last == Some(t) then t + " " else t)
    case _ => None
  }

  /** A repeated error is stored with one space appended; any other is stored as formatted. */
  lemma RepeatedErrorGetsSpace(data: Option<Json>, errorText: string, last: Option<string>)
    requires NextError(data, errorText, None).Some?
    ensures var t := NextError(data, errorText, None).value;
      NextError(data, errorText, last) == Some(if last == Some(t) then t + " " else t)
  {
  }

  /** The provider's state: the last error shown. */
  class ApiProvider {
    var lastError: Option<string>

    constructor ()
      ensures lastError == None
    {
      lastError := None;
    }

    /** `parseError(error)`: formats, truncates and stores the error. */
    method ParseError(data: Option<Json>, errorText: string)
      modifies this
      ensures lastError == (var next := NextError(data, errorText, old(lastError)); if next.Some? then next else old(lastError))
      ensures NextError(data, errorText, old(lastError)).Some? ==> lastError != old(lastError)
    {
      var fallback := if data.Some? && JsTruthy(data.value) then data.value else JStr(errorText);
      var formatted := FormatErrorsWalk(data, fallback);
      if !formatted.JStr? {
        return;
      }
      var newError := Truncate(formatted.s);
      var previous := lastError;
      lastError := Some(newError);
      if previous == Some(newError) {
        lastError := Some(newError + " ");
      }
    }
  }
}
