/** The serializer hooks: the questions a pattern reports, the duplicate-name and
    required-field check on a new YAML text, and the `"none"` name guard shared by
    the manufacturer, device-role and classification serializers. */
module Serializers {
  import opened Wrappers
  import opened Strings
  import opened YamlValue
  import Py = Python
  import Bom
  import Models

  // ---------------------------------------------------------------------------
  // get_questions
  // ---------------------------------------------------------------------------

  /** The `questions` value of a pattern's YAML; `[]` when it does not parse or is not a
      mapping, and when the key is absent. */
  function GetQuestions(text: string, load: Bom.YamlLoader): (r: Value)
    ensures load(text).None? ==> r == List([])
    ensures load(text).Some? && !load(text).value.Dict? ==> r == List([])
    ensures load(text).Some? && load(text).value.Dict? ==>
      r == (if "questions" in load(text).value.fields then load(text).value.fields["questions"] else List([]))
  {
    match load(text)
    case None => List([])
    case Some(doc) => if !doc.Dict? then List([]) else Field(doc, "questions").GetOr(List([]))
  }

  /** What the serializer reports is what `clean` stored when it accepted the same text. */
  lemma GetQuestionsAfterClean(text: string, load: Bom.YamlLoader, eval: Bom.Evaluator, catalog: Bom.Catalog)
    requires Models.CleanResult(text, load, eval, catalog).Ok?
    ensures GetQuestions(text, load) == Models.CleanResult(text, load, eval, catalog).value
  {
    Models.CleanAccepted(text, load, eval, catalog);
  }

  // ---------------------------------------------------------------------------
  // validate_yaml
  // ---------------------------------------------------------------------------

  datatype YamlRejection =
    | ParseFailed                 // `yaml.safe_load` raised; the error is not a validation error
    | Malformed                   // not a mapping
    | MissingField(key: string)
    | DuplicateName(name: Value)
    | Crashed                     // a TypeError or KeyError inside the loop
    | MappingQuestions            // a non-empty mapping as `questions`: the outcome hangs on key order

  /** The fields every question must have, in the order they are checked. */
  const RequiredFields: seq<string> := ["name", "type", "prompt", "default"]

  /** Python's `key in question` for the kinds of question the loop can meet. */
  predicate HasKey(q: Value, key: string) {
    match q
    case Dict(m) => key in m
    case List(xs) => Py.In(Str(key), q)
    case Str(s) => Contains(s, key)
    case _ => false
  }

  /** The first required field `q` lacks, in checking order. */
  function FirstMissing(q: Value, fields: seq<string>): (r: Option<string>)
    ensures r.None? <==> forall k :: 0 <= k < |fields| ==> HasKey(q, fields[k])
    ensures r.Some? ==> r.value in fields && !HasKey(q, r.value)
    decreases |fields|
  {
    if fields == [] then None
    else if !HasKey(q, fields[0]) then Some(fields[0])
    else
      var r := FirstMissing(q, fields[1..]);
      assert forall k :: 1 <= k < |fields| ==> fields[k] == fields[1..][k - 1];
      r
  }

  /** Whether `for key in question` runs its body at least once. */
  predicate NonEmpty(q: Value) {
    (q.Dict? && q.fields != map[]) || (q.List? && q.items != []) || (q.Str? && q.s != "")
  }

  /** `question['name']` after the field check: the name, or why the loop raised. */
  function QuestionName(q: Value): (r: Result<Value, YamlRejection>)
    ensures r.Ok? <==> q.Dict? && q.fields != map[] && forall k :: 0 <= k < |RequiredFields| ==> RequiredFields[k] in q.fields
    ensures r.Ok? ==> q.Dict? && "name" in q.fields && r.value == q.fields["name"]
    ensures q.Dict? && q.fields != map[] && (exists k :: 0 <= k < |RequiredFields| && RequiredFields[k] !in q.fields) ==>
      r.Err? && r.error.MissingField?
  {
    if !(q.Dict? || q.List? || q.Str?) then Err(Crashed)
    else if NonEmpty(q) && FirstMissing(q, RequiredFields).Some? then Err(MissingField(FirstMissing(q, RequiredFields).value))
    else if q.Dict? && "name" in q.fields then Ok(q.fields["name"])
    else Err(Crashed)
  }

  /** `name in question_names`, with Python equality. */
  predicate Seen(names: seq<Value>, name: Value) {
    exists k :: 0 <= k < |names| && Py.Eq(names[k], name)
  }

  /** The question loop over the first `n` questions: the names seen, or the first rejection. */
  function CheckQuestions(qs: seq<Value>, n: nat): Result<seq<Value>, YamlRejection>
    requires n <= |qs|
    decreases n
  {
    if n == 0 then Ok([])
    else match CheckQuestions(qs, n - 1)
      case Err(e) => Err(e)
      case Ok(names) =>
        match QuestionName(qs[n - 1])
        case Err(e) => Err(e)
        case Ok(name) =>
          if !Py.Hashable(name) then Err(Crashed)
          else if Seen(names, name) then Err(DuplicateName(name))
          else Ok(names + [name])
  }

  lemma {:induction false} CheckQuestionsStops(qs: seq<Value>, n: nat, m: nat)
    requires n <= m <= |qs|
    requires CheckQuestions(qs, n).Err?
    ensures CheckQuestions(qs, m) == CheckQuestions(qs, n)
    decreases m - n
  {
    if n < m {
      CheckQuestionsStops(qs, n, m - 1);
    }
  }

  /** The questions a `for` loop visits: a list's items, a string's characters; a
      non-empty mapping is rejected as a whole, other scalars are not iterable. */
  function QuestionItems(v: Value): Result<seq<Value>, YamlRejection> {
    match v
    case List(xs) => Ok(xs)
    case Str(s) => Ok(seq(|s|, k requires 0 <= k < |s| => Str([s[k]])))
    case Dict(m) => if m == map[] then Ok([]) else Err(MappingQuestions)
    case _ => Err(Crashed)
  }

  /** The `questions` value the loop iterates: `[]` when absent. */
  function ParsedQuestions(value: string, load: Bom.YamlLoader): Value {
    match load(value)
    case None => List([])
    case Some(doc) => Field(doc, "questions").GetOr(List([]))
  }

  /** `validate_yaml`: the text back unchanged, or why it is rejected. */
  function ValidateYamlResult(value: string, load: Bom.YamlLoader): (r: Result<string, YamlRejection>)
    ensures r.Ok? ==> r.value == value
  {
    match load(value)
    case None => Err(ParseFailed)
    case Some(doc) =>
      if !doc.Dict? then Err(Malformed)
      else match QuestionItems(Field(doc, "questions").GetOr(List([])))
        case Err(e) => Err(e)
        case Ok(qs) =>
          match CheckQuestions(qs, |qs|)
          case Err(e) => Err(e)
          case Ok(_) => Ok(value)
  }

  /** The loop of `validate_yaml`, growing the set of names seen so far. */
  method ValidateYaml(value: string, load: Bom.YamlLoader) returns (r: Result<string, YamlRejection>)
    ensures r == ValidateYamlResult(value, load)
  {
    var parsed := load(value);
    if parsed.None? { return Err(ParseFailed); }
    if !parsed.value.Dict? { return Err(Malformed); }
    var items := QuestionItems(Field(parsed.value, "questions").GetOr(List([])));
    if items.Err? { return Err(items.error); }
    var qs := items.value;
    var names: seq<Value> := [];
    var i := 0;
    while i < |qs|
      invariant 0 <= i <= |qs|
      invariant CheckQuestions(qs, i) == Ok(names)
      invariant |names| == i
    {
      var name := QuestionName(qs[i]);
      if name.Err? {
        CheckQuestionsStops(qs, i + 1, |qs|);
        return Err(name.error);
      }
      if !Py.Hashable(name.value) {
        CheckQuestionsStops(qs, i + 1, |qs|);
        return Err(Crashed);
      }
      if Seen(names, name.value) {
        CheckQuestionsStops(qs, i + 1, |qs|);
        return Err(DuplicateName(name.value));
      }
      names := names + [name.value];
      i := i + 1;
    }
    return Ok(value);
  }

  /** The names seen grow by one per question: after `n` accepted questions they are the
      questions' names, in order, no two of them equal. */
  lemma {:induction false} SeenNames(qs: seq<Value>, n: nat)
    requires n <= |qs|
    requires CheckQuestions(qs, n).Ok?
    ensures var names := CheckQuestions(qs, n).value;
      && |names| == n
      && (forall k :: 0 <= k < n ==> QuestionName(qs[k]) == Ok(names[k]))
      && (forall j, k :: 0 <= j < k < n ==> !Py.Eq(names[j], names[k]))
    decreases n
  {
    if n > 0 {
      SeenNames(qs, n - 1);
      var names := CheckQuestions(qs, n - 1).value;
      var name := QuestionName(qs[n - 1]).value;
      forall j | 0 <= j < n - 1 ensures !Py.Eq(names[j], name) {
        assert !Seen(names, name);
      }
    }
  }

  /** An accepted text has no two questions with equal names, and every question is a
      mapping with the four required fields. */
  lemma AcceptedQuestionsDistinct(value: string, load: Bom.YamlLoader)
    requires ValidateYamlResult(value, load).Ok?
    requires ParsedQuestions(value, load).List?
    ensures var qs := ParsedQuestions(value, load).items;
      forall j, k :: 0 <= j < k < |qs| ==>
        && qs[j].Dict? && "name" in qs[j].fields && qs[k].Dict? && "name" in qs[k].fields
        && !Py.Eq(qs[j].fields["name"], qs[k].fields["name"])
    ensures var qs := ParsedQuestions(value, load).items;
      forall k :: 0 <= k < |qs| ==> qs[k].Dict? && forall f :: f in RequiredFields ==> f in qs[k].fields
  {
    var qs := ParsedQuestions(value, load).items;
    SeenNames(qs, |qs|);
  }

  /** The second occurrence of a name is rejected: a text whose questions `j < k` are both
      complete and have equal names is not accepted. */
  lemma DuplicateRejected(value: string, load: Bom.YamlLoader, j: nat, k: nat)
    requires ParsedQuestions(value, load).List?
    requires var qs := ParsedQuestions(value, load).items;
      && j < k < |qs|
      && QuestionName(qs[j]).Ok? && QuestionName(qs[k]).Ok?
      && Py.Eq(QuestionName(qs[j]).value, QuestionName(qs[k]).value)
    ensures ValidateYamlResult(value, load).Err?
  {
    if ValidateYamlResult(value, load).Ok? {
      AcceptedQuestionsDistinct(value, load);
    }
  }

  /** A question with at least one key that lacks a required field is rejected. */
  lemma IncompleteQuestionRejected(value: string, load: Bom.YamlLoader, k: nat, field: string)
    requires ParsedQuestions(value, load).List?
    requires var qs := ParsedQuestions(value, load).items;
      k < |qs| && qs[k].Dict? && qs[k].fields != map[] && field in RequiredFields && field !in qs[k].fields
    ensures ValidateYamlResult(value, load).Err?
  {
    if ValidateYamlResult(value, load).Ok? {
      AcceptedQuestionsDistinct(value, load);
    }
  }

  /** A question that is an empty mapping passes the field check but has no `name`: the
      loop raises a KeyError instead of a validation error. */
  lemma EmptyQuestionCrashes()
    ensures QuestionName(Dict(map[])) == Err(Crashed)
  {
  }

  // ---------------------------------------------------------------------------
  // validate_name
  // ---------------------------------------------------------------------------

  /** `validate_name` of the manufacturer, device-role and classification serializers:
      the names spelling `none` in any letter case are rejected, keeping them distinct from
      the `"None"` the frontend uses for a missing device role. */
  function ValidateName(value: string): (r: Option<string>)
    ensures r.Some? ==> r.value == value
  {
    if Lower(value) == "none" then None else Some(value)
  }

  /** Names differing only in letter case are treated alike, and the sentinel itself is
      rejected in every spelling. */
  lemma ValidateNameCaseBlind(a: string, b: string)
    requires Lower(a) == Lower(b)
    ensures ValidateName(a).Some? <==> ValidateName(b).Some?
  {
  }

  lemma ValidateNameRejectsSentinel()
    ensures ValidateName("None").None? && ValidateName("NONE").None? && ValidateName("none").None?
    ensures ValidateName("Nonexistent").Some? && ValidateName("").Some?
  {
    assert Lower("None") == "none";
    assert Lower("NONE") == "none";
    assert |Lower("Nonexistent")| == 11;
  }

  /** Exactly the four-letter spellings of `none` are rejected. */
  lemma ValidateNameRejectsExactly(value: string)
    ensures ValidateName(value).None? <==>
      |value| == 4 && value[0] in "nN" && value[1] in "oO" && value[2] in "nN" && value[3] in "eE"
  {
    if |value| == 4 {
      var l := Lower(value);
      assert l == [LowerChar(value[0]), LowerChar(value[1]), LowerChar(value[2]), LowerChar(value[3])];
    }
  }
}
