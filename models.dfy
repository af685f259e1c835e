/** The pattern records and their save-time validation: the group-name rule,
    `Pattern.clean` (structure checks, the name-to-default map and a dry run of
    BOM generation), `Pattern.save` and the table constraints on versions. */
module Models {
  import opened Wrappers
  import opened YamlValue
  import Py = Python
  import Bom
  import BomProperties

  // ---------------------------------------------------------------------------
  // Group names: `^[a-z0-9]+(\.[a-z0-9]+)*$`, at most 100 characters
  // ---------------------------------------------------------------------------

  const GroupNameMaxLength: nat := 100

  predicate IsNameChar(c: char) { 'a' <= c <= 'z' || '0' <= c <= '9' }

  /** The pattern run as a two-state automaton over `s`: `needChar` holds at the
      start and right after a dot, where a segment character must follow. */
  function ScanName(s: string, needChar: bool): bool
    decreases |s|
  {
    if s == [] then !needChar
    else if IsNameChar(s[0]) then ScanName(s[1..], false)
    else if s[0] == '.' && !needChar then ScanName(s[1..], true)
    else false
  }

  /** Non-empty lowercase/digit segments joined by single dots: only `[a-z0-9.]`, not
      empty, no leading, trailing or doubled dot. */
  predicate DotSeparated(s: string) {
    && s != []
    && (forall k :: 0 <= k < |s| ==> IsNameChar(s[k]) || s[k] == '.')
    && s[0] != '.' && s[|s| - 1] != '.'
    && (forall k :: 0 <= k < |s| - 1 ==> !(s[k] == '.' && s[k + 1] == '.'))
  }

  /** Python's `re.search` with this pattern: `$` also matches before one final newline. */
  predicate GroupNameMatches(s: string) {
    ScanName(s, true) || (s != [] && s[|s| - 1] == '\n' && ScanName(s[..|s| - 1], true))
  }

  /** The validators of `PatternGroup.name`: the length limit and the pattern. */
  predicate GroupNameValid(name: string) {
    |name| <= GroupNameMaxLength && GroupNameMatches(name)
  }

  lemma {:induction false} ScanNameIff(s: string, needChar: bool)
    ensures ScanName(s, needChar) <==>
      && (forall k :: 0 <= k < |s| ==> IsNameChar(s[k]) || s[k] == '.')
      && (needChar ==> s != [] && s[0] != '.')
      && (s != [] ==> s[|s| - 1] != '.')
      && (forall k :: 0 <= k < |s| - 1 ==> !(s[k] == '.' && s[k + 1] == '.'))
    decreases |s|
  {
    if s != [] && (IsNameChar(s[0]) || (s[0] == '.' && !needChar)) {
      var t := s[1..];
      ScanNameIff(t, s[0] == '.');
      assert forall k :: 1 <= k < |s| ==> s[k] == t[k - 1];
      if |s| > 1 {
        assert s[|s| - 1] == t[|t| - 1];
      }
    }
  }

  /** The pattern accepts exactly the dot-separated names. */
  lemma GroupNamePatternIff(s: string)
    ensures ScanName(s, true) <==> DotSeparated(s)
  {
    ScanNameIff(s, true);
  }

  /** A name without a newline is valid exactly when it is dot-separated and short enough. */
  lemma GroupNameValidIff(name: string)
    requires '\n' !in name
    ensures GroupNameValid(name) <==> |name| <= GroupNameMaxLength && DotSeparated(name)
  {
    GroupNamePatternIff(name);
    if name != [] {
      assert name[|name| - 1] in name;
    }
  }

  // ---------------------------------------------------------------------------
  // Pattern.clean
  // ---------------------------------------------------------------------------

  /** The reasons `clean` rejects a pattern; item numbers count from 1. */
  datatype CleanError =
    | InvalidYaml
    | MissingProducts                          // not a mapping, or no `products` key
    | ProductsNotList
    | RuleNotDict(item: nat)
    | RuleWithoutAdd(item: nat)
    | RawNotList
    | RawEmpty
    | MissingRuleField(field: string, item: nat)
    | ConditionNotString(item: nat)
    | ProductNotString(item: nat)
    | QuantityNotNumber(item: nat)
    | QuestionsNotList
    | QuestionNotDict(item: nat)
    | MissingQuestionField(field: string, item: nat)
    | UnhashableQuestionName(item: nat)        // a list or dict name used as a dict key (TypeError)
    | GenerationFailed(error: Bom.BomError)    // the dry run raised

  /** The structural check of the product rule at index `i`. */
  function RuleError(i: nat, r: Value): (e: Option<CleanError>)
    ensures e.None? ==> r.Dict? && FieldOrNull(r, "add").Dict? && FieldOrNull(r, "add").fields != map[]
    ensures e.None? && "raw" in FieldOrNull(r, "add").fields ==>
      FieldOrNull(r, "add").fields["raw"].List? && FieldOrNull(r, "add").fields["raw"].items != []
    ensures e.None? && "raw" !in FieldOrNull(r, "add").fields ==>
      var add := FieldOrNull(r, "add").fields;
      && "product" in add && add["product"].Str?
      && "quantity" in add && (add["quantity"].Str? || add["quantity"].Int? || add["quantity"].Bool?)
      && (Py.Truthy(FieldOrNull(r, "condition")) ==> FieldOrNull(r, "condition").Str?)
  {
    if !r.Dict? then Some(RuleNotDict(i + 1))
    else
      var add := FieldOrNull(r, "add");
      if !Py.Truthy(add) || !add.Dict? then Some(RuleWithoutAdd(i + 1))
      else if "raw" in add.fields then
        var raw := add.fields["raw"];
        if !raw.List? then Some(RawNotList)
        else if raw.items == [] then Some(RawEmpty)
        else None
      else if "product" !in add.fields then Some(MissingRuleField("product", i + 1))
      else if "quantity" !in add.fields then Some(MissingRuleField("quantity", i + 1))
      else
        var cond := FieldOrNull(r, "condition");
        if Py.Truthy(cond) && !cond.Str? then Some(ConditionNotString(i + 1))
        else if !add.fields["product"].Str? then Some(ProductNotString(i + 1))
        else
          var q := add.fields["quantity"];
          // `isinstance(q, int)` holds for booleans too
          if !(q.Str? || q.Int? || q.Bool?) then Some(QuantityNotNumber(i + 1))
          else None
  }

  /** The first structural error among the first `n` rules. */
  function FirstRuleError(rules: seq<Value>, n: nat): Option<CleanError>
    requires n <= |rules|
    decreases n
  {
    if n == 0 then None
    else match FirstRuleError(rules, n - 1)
      case Some(e) => Some(e)
      case None => RuleError(n - 1, rules[n - 1])
  }

  lemma {:induction false} FirstRuleErrorStops(rules: seq<Value>, n: nat, m: nat)
    requires n <= m <= |rules|
    requires FirstRuleError(rules, n).Some?
    ensures FirstRuleError(rules, m) == FirstRuleError(rules, n)
    decreases m - n
  {
    if n < m {
      FirstRuleErrorStops(rules, n, m - 1);
    }
  }

  /** The rules pass exactly when every rule passes, and a reported error is the error
      of the first rule that fails. */
  lemma {:induction false} FirstRuleErrorIff(rules: seq<Value>, n: nat)
    requires n <= |rules|
    ensures FirstRuleError(rules, n).None? <==> forall k :: 0 <= k < n ==> RuleError(k, rules[k]).None?
    ensures FirstRuleError(rules, n).Some? ==>
      exists k :: 0 <= k < n && FirstRuleError(rules, n) == RuleError(k, rules[k])
        && (forall j :: 0 <= j < k ==> RuleError(j, rules[j]).None?)
    decreases n
  {
    if n > 0 {
      FirstRuleErrorIff(rules, n - 1);
    }
  }

  /** The loop over the product rules. */
  method CheckRules(rules: seq<Value>) returns (err: Option<CleanError>)
    ensures err == FirstRuleError(rules, |rules|)
  {
    var i := 0;
    while i < |rules|
      invariant 0 <= i <= |rules|
      invariant FirstRuleError(rules, i).None?
    {
      err := RuleError(i, rules[i]);
      if err.Some? {
        FirstRuleErrorStops(rules, i + 1, |rules|);
        return;
      }
      i := i + 1;
    }
    return None;
  }

  /** The structural check of the question at index `i`. */
  function QuestionError(i: nat, q: Value): (e: Option<CleanError>)
    ensures e.None? <==>
      && q.Dict? && "name" in q.fields && "type" in q.fields && "prompt" in q.fields && "default" in q.fields
      && Py.Hashable(q.fields["name"])
  {
    if !q.Dict? then Some(QuestionNotDict(i + 1))
    else if "name" !in q.fields then Some(MissingQuestionField("name", i + 1))
    else if "type" !in q.fields then Some(MissingQuestionField("type", i + 1))
    else if "prompt" !in q.fields then Some(MissingQuestionField("prompt", i + 1))
    else if "default" !in q.fields then Some(MissingQuestionField("default", i + 1))
    else if !Py.Hashable(q.fields["name"]) then Some(UnhashableQuestionName(i + 1))
    else None
  }

  /** The question loop over the first `n` questions: the first error, or the
      name-to-default map it fills. */
  function ScanQuestions(qs: seq<Value>, n: nat): Result<Bom.Answers, CleanError>
    requires n <= |qs|
    decreases n
  {
    if n == 0 then Ok([])
    else match ScanQuestions(qs, n - 1)
      case Err(e) => Err(e)
      case Ok(defaults) =>
        match QuestionError(n - 1, qs[n - 1])
        case Some(e) => Err(e)
        case None => Ok(Py.Set(defaults, qs[n - 1].fields["name"], qs[n - 1].fields["default"]))
  }

  lemma {:induction false} ScanQuestionsStops(qs: seq<Value>, n: nat, m: nat)
    requires n <= m <= |qs|
    requires ScanQuestions(qs, n).Err?
    ensures ScanQuestions(qs, m) == ScanQuestions(qs, n)
    decreases m - n
  {
    if n < m {
      ScanQuestionsStops(qs, n, m - 1);
    }
  }

  /** The default of the last of the first `n` questions whose name equals `x`. */
  function LastDefault(qs: seq<Value>, n: nat, x: Value): Option<Value>
    requires n <= |qs|
    decreases n
  {
    if n == 0 then None
    else if Py.Eq(FieldOrNull(qs[n - 1], "name"), x) then Some(FieldOrNull(qs[n - 1], "default"))
    else LastDefault(qs, n - 1, x)
  }

  /** The defaults map answers every question name with the default of the last question
      of that name, and holds nothing else. */
  lemma {:induction false} DefaultsAreLastDefaults(qs: seq<Value>, n: nat, x: Value)
    requires n <= |qs|
    requires ScanQuestions(qs, n).Ok?
    ensures Py.Get(ScanQuestions(qs, n).value, x) == LastDefault(qs, n, x)
    decreases n
  {
    if n > 0 {
      DefaultsAreLastDefaults(qs, n - 1, x);
      Py.GetSet(ScanQuestions(qs, n - 1).value, qs[n - 1].fields["name"], qs[n - 1].fields["default"], x);
    }
  }

  /** The question loop: every question must be a mapping with the four fields, and its
      name and default go into the map. */
  method BuildDefaults(qs: seq<Value>) returns (r: Result<Bom.Answers, CleanError>)
    ensures r == ScanQuestions(qs, |qs|)
  {
    var defaults: Bom.Answers := [];
    var i := 0;
    while i < |qs|
      invariant 0 <= i <= |qs|
      invariant ScanQuestions(qs, i) == Ok(defaults)
    {
      var e := QuestionError(i, qs[i]);
      if e.Some? {
        assert ScanQuestions(qs, i + 1) == Err(e.value);
        ScanQuestionsStops(qs, i + 1, |qs|);
        return Err(e.value);
      }
      var next := Py.Set(defaults, qs[i].fields["name"], qs[i].fields["default"]);
      assert ScanQuestions(qs, i + 1) == Ok(next);
      defaults, i := next, i + 1;
    }
    return Ok(defaults);
  }

  /** The questions `clean` stores, or the first reason it rejects the document. The dry run
      keys raw rows as the code does, as `raw_<i>` among the part numbers (see `Bom.KeyMode`). */
  function CleanResult(text: string, load: Bom.YamlLoader, eval: Bom.Evaluator, catalog: Bom.Catalog)
    : Result<Value, CleanError>
  {
    match load(text)
    case None => Err(InvalidYaml)
    case Some(doc) =>
      if !doc.Dict? || "products" !in doc.fields then Err(MissingProducts)
      else
        var products := doc.fields["products"];
        if !products.List? then Err(ProductsNotList)
        else match FirstRuleError(products.items, |products.items|)
          case Some(e) => Err(e)
          case None =>
            var questions := Field(doc, "questions").GetOr(List([]));
            if !questions.List? then Err(QuestionsNotList)
            else match ScanQuestions(questions.items, |questions.items|)
              case Err(e) => Err(e)
              case Ok(defaults) =>
                match Bom.Generate(Bom.SharedKeys, text, defaults, false, load, eval, catalog)
                case Err(e) => Err(GenerationFailed(e))
                case Ok(_) => Ok(questions)
  }

  /** The body of `clean`: the checks in order, then the dry run with the defaults. */
  method ValidatePattern(text: string, load: Bom.YamlLoader, eval: Bom.Evaluator, catalog: Bom.Catalog)
    returns (r: Result<Value, CleanError>)
    ensures r == CleanResult(text, load, eval, catalog)
  {
    var parsed := load(text);
    if parsed.None? { return Err(InvalidYaml); }
    var doc := parsed.value;
    if !doc.Dict? || "products" !in doc.fields { return Err(MissingProducts); }
    var products := doc.fields["products"];
    if !products.List? { return Err(ProductsNotList); }
    var ruleError := CheckRules(products.items);
    if ruleError.Some? { return Err(ruleError.value); }
    var questions := Field(doc, "questions").GetOr(List([]));
    if !questions.List? { return Err(QuestionsNotList); }
    var defaults := BuildDefaults(questions.items);
    if defaults.Err? { return Err(defaults.error); }
    var bom := Bom.GenerateBom(Bom.SharedKeys, text, defaults.value, false, load, eval, catalog);
    if bom.Err? { return Err(GenerationFailed(bom.error)); }
    return Ok(questions);
  }

  /** A pattern `clean` accepts is a well-formed document whose rules all pass the
      structural checks, whose questions all carry the four fields, and whose defaults
      pass BOM generation without a PDF. */
  lemma CleanAccepted(text: string, load: Bom.YamlLoader, eval: Bom.Evaluator, catalog: Bom.Catalog)
    requires CleanResult(text, load, eval, catalog).Ok?
    ensures load(text).Some? && load(text).value.Dict? && "products" in load(text).value.fields
    ensures var doc := load(text).value;
      var rules := doc.fields["products"];
      var qs := CleanResult(text, load, eval, catalog).value;
      && rules.List? && (forall k :: 0 <= k < |rules.items| ==> RuleError(k, rules.items[k]).None?)
      && qs == Field(doc, "questions").GetOr(List([])) && qs.List?
      && (forall k :: 0 <= k < |qs.items| ==> QuestionError(k, qs.items[k]).None?)
      && ScanQuestions(qs.items, |qs.items|).Ok?
      && Bom.Generate(Bom.SharedKeys, text, ScanQuestions(qs.items, |qs.items|).value, false, load, eval, catalog).Ok?
  {
    var doc := load(text).value;
    FirstRuleErrorIff(doc.fields["products"].items, |doc.fields["products"].items|);
    var qs := CleanResult(text, load, eval, catalog).value;
    forall k | 0 <= k < |qs.items| ensures QuestionError(k, qs.items[k]).None? {
      QuestionPassed(qs.items, |qs.items|, k);
    }
  }

  lemma {:induction false} QuestionPassed(qs: seq<Value>, n: nat, k: nat)
    requires k < n <= |qs|
    requires ScanQuestions(qs, n).Ok?
    ensures QuestionError(k, qs[k]).None?
    decreases n
  {
    if k < n - 1 {
      QuestionPassed(qs, n - 1, k);
    }
  }

  /** An empty BOM does not stop a save: the dry run never fails with `EmptyBom`. */
  lemma CleanNeverEmptyBom(text: string, load: Bom.YamlLoader, eval: Bom.Evaluator, catalog: Bom.Catalog)
    ensures CleanResult(text, load, eval, catalog) != Err(GenerationFailed(Bom.EmptyBom))
  {
    var r := CleanResult(text, load, eval, catalog);
    if load(text).None? {
      assert r == Err(InvalidYaml);
    } else {
      var doc := load(text).value;
      if !doc.Dict? || "products" !in doc.fields {
        assert r == Err(MissingProducts);
      } else if !doc.fields["products"].List? {
        assert r == Err(ProductsNotList);
      } else {
        var rules := doc.fields["products"].items;
        var questions := Field(doc, "questions").GetOr(List([]));
        if FirstRuleError(rules, |rules|).Some? {
          assert r == Err(FirstRuleError(rules, |rules|).value);
          FirstRuleErrorIff(rules, |rules|);
        } else if !questions.List? {
          assert r == Err(QuestionsNotList);
        } else if ScanQuestions(questions.items, |questions.items|).Err? {
          assert r == Err(ScanQuestions(questions.items, |questions.items|).error);
          ScanErrorIsQuestionError(questions.items, |questions.items|);
        } else {
          var defaults := ScanQuestions(questions.items, |questions.items|).value;
          BomProperties.DryRunNeverEmpty(Bom.SharedKeys, text, defaults, load, eval, catalog);
          CleanFromGeneration(text, load, eval, catalog);
        }
      }
    }
  }

  lemma {:induction false} ScanErrorIsQuestionError(qs: seq<Value>, n: nat)
    requires n <= |qs|
    ensures ScanQuestions(qs, n).Err? ==> !ScanQuestions(qs, n).error.GenerationFailed?
    decreases n
  {
    if n > 0 {
      ScanErrorIsQuestionError(qs, n - 1);
    }
  }

  /** When the structure checks pass, `clean` reports exactly what the dry run reports. */
  lemma CleanFromGeneration(text: string, load: Bom.YamlLoader, eval: Bom.Evaluator, catalog: Bom.Catalog)
    requires load(text).Some? && load(text).value.Dict? && "products" in load(text).value.fields
    requires var doc := load(text).value;
      var questions := Field(doc, "questions").GetOr(List([]));
      && doc.fields["products"].List?
      && FirstRuleError(doc.fields["products"].items, |doc.fields["products"].items|).None?
      && questions.List? && ScanQuestions(questions.items, |questions.items|).Ok?
    ensures var doc := load(text).value;
      var questions := Field(doc, "questions").GetOr(List([]));
      var g := Bom.Generate(Bom.SharedKeys, text, ScanQuestions(questions.items, |questions.items|).value,
                            false, load, eval, catalog);
      CleanResult(text, load, eval, catalog) == if g.Ok? then Ok(questions) else Err(GenerationFailed(g.error))
  {
  }

  // ---------------------------------------------------------------------------
  // The default pattern
  // ---------------------------------------------------------------------------

  /** The parsed form of the YAML every new pattern starts with: three questions and four
      rules, all of them for the placeholder product `"example"`. */
  function DefaultDocument(): Value {
    Dict(map[
      "questions" := List(DefaultQuestions()),
      "products" := List([
        Dict(map["add" := Dict(map["product" := Str("example"), "quantity" := Int(2)])]),
        Dict(map["condition" := Str("num_racks > 2"),
                 "add" := Dict(map["product" := Str("example"), "quantity" := Str("num_racks * 2")])]),
        Dict(map["condition" := Str("power_cables == True"),
                 "add" := Dict(map["product" := Str("example"), "quantity" := Int(1)])]),
        Dict(map["condition" := Str("support_years == 5"),
                 "add" := Dict(map["product" := Str("example"), "quantity" := Str("num_racks * 2")])])
      ])
    ])
  }

  function DefaultQuestions(): seq<Value> {
    [ Dict(map["name" := Str("num_racks"), "type" := Str("integer"), "min" := Int(0), "max" := Int(2),
               "prompt" := Str("How many racks?"),
               "description" := Str("How many racks does your network require?"), "default" := Int(2)]),
      Dict(map["name" := Str("power_cables"), "type" := Str("boolean"),
               "prompt" := Str("Do you need power cables?"), "default" := Bool(false)]),
      Dict(map["name" := Str("support_years"), "type" := Str("enum"),
               "prompt" := Str("How many years of support?"),
               "choices" := List([Int(1), Int(3), Int(5)]), "default" := Int(3)]) ]
  }

  function DefaultAnswers(): Bom.Answers {
    [(Str("num_racks"), Int(2)), (Str("power_cables"), Bool(false)), (Str("support_years"), Int(3))]
  }

  // ---------------------------------------------------------------------------
  // The pattern table and Pattern.save
  // ---------------------------------------------------------------------------

  /** A stored pattern row. */
  datatype PatternRow = PatternRow(group: string, description: string, version: int,
                                   deprecated: bool, yaml: string, questions: Value)

  /** No two rows of the same group share a version. */
  predicate UniqueVersions(rows: map<nat, PatternRow>) {
    forall a, b :: a in rows && b in rows && a != b ==>
      rows[a].group != rows[b].group || rows[a].version != rows[b].version
  }

  /** Whether a row with this group and version may be stored at `id`. */
  predicate VersionFree(rows: map<nat, PatternRow>, id: nat, group: string, version: int) {
    forall other :: other in rows && other != id ==> rows[other].group != group || rows[other].version != version
  }

  /** The table constraints: every row belongs to a stored group, its version is a
      positive integer column (`>= 0`), (group, version) is unique, ids are below `nextId`. */
  predicate TableValid(groups: map<string, string>, patterns: map<nat, PatternRow>, nextId: nat) {
    && (forall id :: id in patterns ==> id < nextId && patterns[id].group in groups && patterns[id].version >= 0)
    && UniqueVersions(patterns)
  }

  /** Storing a row the constraints admit keeps the table valid. */
  lemma StoreKeepsValid(groups: map<string, string>, patterns: map<nat, PatternRow>, nextId: nat,
                        target: nat, row: PatternRow)
    requires TableValid(groups, patterns, nextId)
    requires row.group in groups && row.version >= 0 && VersionFree(patterns, target, row.group, row.version)
    ensures TableValid(groups, patterns[target := row], if target >= nextId then target + 1 else nextId)
  {
  }

  /** The pattern groups (name to description) and the pattern rows by id. */
  class Database {
    var groups: map<string, string>
    var patterns: map<nat, PatternRow>
    var nextId: nat

    ghost predicate Valid()
      reads this
    {
      TableValid(groups, patterns, nextId)
    }

    constructor ()
      ensures Valid() && groups == map[] && patterns == map[]
    {
      groups := map[];
      patterns := map[];
      nextId := 0;
    }
  }

  datatype SaveError = Invalid(reason: CleanError) | IntegrityError

  /** An in-memory pattern instance, stored or not yet stored (`id == None`). */
  class Pattern {
    var id: Option<nat>
    var group: string
    var description: string
    var version: int
    var deprecated: bool
    var yaml: string
    var questions: Value

    /** `Pattern(group=..., description=..., version=...)` with the field defaults. */
    constructor (group: string, description: string, version: int, defaultYaml: string)
      ensures this.id == None && this.group == group && this.description == description
      ensures this.version == version && !this.deprecated && this.yaml == defaultYaml
      ensures this.questions == List([])
    {
      this.id := None;
      this.group := group;
      this.description := description;
      this.version := version;
      this.deprecated := false;
      this.yaml := defaultYaml;
      this.questions := List([]);
    }

    /** `Pattern.objects.get(id=...)`: the instance for a stored row. */
    constructor Stored(id: nat, row: PatternRow)
      ensures this.id == Some(id) && Row() == row
      ensures group == row.group && description == row.description && version == row.version
      ensures deprecated == row.deprecated && yaml == row.yaml && questions == row.questions
    {
      this.id := Some(id);
      this.group := row.group;
      this.description := row.description;
      this.version := row.version;
      this.deprecated := row.deprecated;
      this.yaml := row.yaml;
      this.questions := row.questions;
    }

    function Row(): PatternRow
      reads this
    {
      PatternRow(group, description, version, deprecated, yaml, questions)
    }

    /** `clean`: on success the questions field is set to the parsed questions; on
        failure nothing changes. */
    method Clean(load: Bom.YamlLoader, eval: Bom.Evaluator, catalog: Bom.Catalog)
      returns (err: Option<CleanError>)
      modifies this
      ensures var r := CleanResult(yaml, load, eval, catalog);
        && (r.Ok? ==> err.None? && questions == r.value)
        && (r.Err? ==> err == Some(r.error) && questions == old(questions))
      ensures id == old(id) && group == old(group) && description == old(description)
      ensures version == old(version) && deprecated == old(deprecated) && yaml == old(yaml)
    {
      var r := ValidatePattern(yaml, load, eval, catalog);
      if r.Err? {
        return Some(r.error);
      }
      questions := r.value;
      return None;
    }

    /** `save`: runs `clean` first, so a pattern `clean` rejects is never stored; then the
        table constraints decide. A stored pattern keeps its id, a new one gets the next. */
    method Save(db: Database, load: Bom.YamlLoader, eval: Bom.Evaluator, catalog: Bom.Catalog)
      returns (r: Result<nat, SaveError>)
      requires db.Valid()
      modifies this, db
      ensures db.Valid()
      ensures db.groups == old(db.groups)
      ensures r.Err? ==> db.patterns == old(db.patterns) && db.nextId == old(db.nextId) && id == old(id)
      ensures r.Err? && r.error.Invalid? ==>
        CleanResult(yaml, load, eval, catalog) == Err(r.error.reason) && questions == old(questions)
      ensures r.Err? && r.error.IntegrityError? ==>
        && CleanResult(yaml, load, eval, catalog) == Ok(questions)
        && (group !in db.groups || version < 0 ||
            !VersionFree(db.patterns, if old(id).Some? then old(id).value else old(db.nextId), group, version))
      ensures r.Ok? ==>
        && CleanResult(yaml, load, eval, catalog) == Ok(questions)
        && id == Some(r.value)
        && (old(id).Some? ==> r.value == old(id).value)
        && (old(id).None? ==> r.value == old(db.nextId) && r.value !in old(db.patterns))
        && group in db.groups && version >= 0 && VersionFree(old(db.patterns), r.value, group, version)
        && db.patterns == old(db.patterns)[r.value := Row()]
        && db.nextId == (if r.value >= old(db.nextId) then r.value + 1 else old(db.nextId))
      ensures group == old(group) && description == old(description) && version == old(version)
      ensures deprecated == old(deprecated) && yaml == old(yaml)
    {
      var err := Clean(load, eval, catalog);
      if err.Some? {
        return Err(Invalid(err.value));
      }
      var target := if id.Some? then id.value else db.nextId;
      if group !in db.groups || version < 0 || !VersionFree(db.patterns, target, group, version) {
        return Err(IntegrityError);
      }
      var row := Row();
      StoreKeepsValid(db.groups, db.patterns, db.nextId, target, row);
      db.patterns := db.patterns[target := row];
      if target >= db.nextId {
        db.nextId := target + 1;
      }
      id := Some(target);
      assert Row() == row;
      r := Ok(target);
    }
  }
}
