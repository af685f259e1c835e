/** The pattern endpoints: BOM download, pattern creation with version allocation,
    the group-description PATCH and the pattern PATCH. Each view is a method on the
    database specified by a function from the old tables to the response and the new
    tables; the lemmas state what the endpoints promise about those tables. */
module Views {
  import opened Wrappers
  import opened YamlValue
  import Py = Python
  import Bom
  import BomProperties
  import Models
  import DefaultPattern
  import Serializers

  /** The stored state the views read and write. */
  datatype Tables = Tables(groups: map<string, string>, patterns: map<nat, Models.PatternRow>, nextId: nat)

  predicate Valid(t: Tables) {
    Models.TableValid(t.groups, t.patterns, t.nextId)
  }

  function State(db: Models.Database): Tables
    reads db
  {
    Tables(db.groups, db.patterns, db.nextId)
  }

  /** Every stored group name satisfies the `PatternGroup.name` validators. */
  predicate GroupNamesValid(groups: map<string, string>) {
    forall n :: n in groups ==> Models.GroupNameValid(n)
  }

  // ---------------------------------------------------------------------------
  // download_bom
  // ---------------------------------------------------------------------------

  /** The `answers` member of the request body: a JSON object (its entries in order), or
      any other JSON value. */
  datatype AnswerPayload = AnswerObject(entries: Bom.Answers) | AnswerOther(value: Value)

  datatype BomResponse =
    | PatternMissing
    | BadAnswers
    | GenerationError(error: Bom.BomError)
    | Pdf(rows: seq<Bom.Row>)

  function BomStatus(r: BomResponse): nat {
    match r
    case PatternMissing => 404
    case BadAnswers => 400
    case GenerationError(_) => 400
    case Pdf(_) => 200
  }

  /** `request.data.get("answers", {})`: an absent member is the empty object. */
  function AnswersOrEmpty(answers: Option<AnswerPayload>): AnswerPayload {
    answers.GetOr(AnswerObject([]))
  }

  /** `download_bom`: 404 for an unknown pattern, 400 for answers that are not an object
      (before any generation), otherwise the BOM generated for a PDF, which is never empty. */
  function DownloadBom(t: Tables, id: nat, answers: Option<AnswerPayload>,
                       load: Bom.YamlLoader, eval: Bom.Evaluator, catalog: Bom.Catalog): (r: BomResponse)
    ensures r.PatternMissing? <==> id !in t.patterns
    ensures r.BadAnswers? <==> id in t.patterns && answers.Some? && answers.value.AnswerOther?
    ensures r.GenerationError? ==>
      && id in t.patterns && AnswersOrEmpty(answers).AnswerObject?
      && Bom.Generate(Bom.SharedKeys, t.patterns[id].yaml, AnswersOrEmpty(answers).entries, true, load, eval, catalog)
         == Err(r.error)
    ensures r.Pdf? ==>
      && id in t.patterns && AnswersOrEmpty(answers).AnswerObject? && r.rows != []
      && Bom.Generate(Bom.SharedKeys, t.patterns[id].yaml, AnswersOrEmpty(answers).entries, true, load, eval, catalog)
         == Ok(r.rows)
  {
    if id !in t.patterns then PatternMissing
    else match AnswersOrEmpty(answers)
      case AnswerOther(_) => BadAnswers
      case AnswerObject(entries) =>
        match Bom.Generate(Bom.SharedKeys, t.patterns[id].yaml, entries, true, load, eval, catalog)
        case Err(e) => GenerationError(e)
        case Ok(rows) =>
          BomProperties.PdfBomNotEmpty(Bom.SharedKeys, t.patterns[id].yaml, entries, load, eval, catalog);
          Pdf(rows)
  }

  // ---------------------------------------------------------------------------
  // pattern_list_create, POST: a new pattern version
  // ---------------------------------------------------------------------------

  /** The highest version among the rows of `group` with an id below `n`. */
  function MaxVersion(rows: map<nat, Models.PatternRow>, group: string, n: nat): (m: Option<int>)
    ensures m.None? <==> forall id :: id < n && id in rows ==> rows[id].group != group
    ensures m.Some? ==> forall id :: id < n && id in rows && rows[id].group == group ==> rows[id].version <= m.value
    ensures m.Some? ==> exists id :: id < n && id in rows && rows[id].group == group && rows[id].version == m.value
    decreases n
  {
    if n == 0 then None
    else
      var m := MaxVersion(rows, group, n - 1);
      if n - 1 in rows && rows[n - 1].group == group then
        if m.Some? && m.value > rows[n - 1].version then m else Some(rows[n - 1].version)
      else m
  }

  /** `(max_version or 0) + 1` over the rows of the group. */
  function NewVersion(t: Tables, group: string): int {
    var m := MaxVersion(t.patterns, group, t.nextId);
    (if m.None? || m.value == 0 then 0 else m.value) + 1
  }

  /** The new version is at least 1, exceeds every version of the group, and is exactly
      one more than the highest of them when there is one: so storing it keeps
      (group, version) unique. */
  lemma NewVersionFresh(t: Tables, group: string)
    requires Valid(t)
    ensures NewVersion(t, group) >= 1
    ensures forall id :: id in t.patterns && t.patterns[id].group == group ==> t.patterns[id].version < NewVersion(t, group)
    ensures NewVersion(t, group) > 1 ==>
      exists id :: id in t.patterns && t.patterns[id].group == group && t.patterns[id].version == NewVersion(t, group) - 1
    ensures Models.VersionFree(t.patterns, t.nextId, group, NewVersion(t, group))
  {
  }

  /** Which happens first when the group is new: storing it (`get_or_create`) or checking
      its fields with the group serializer. */
  datatype GroupCheck = StoreThenValidate | ValidateThenStore

  datatype CreateResponse =
    | CreateUnauthorized
    | InvalidGroup
    | CreateFailed
    | Created(id: nat, version: int)

  function CreateStatus(r: CreateResponse): nat {
    match r
    case CreateUnauthorized => 401
    case InvalidGroup => 400
    case CreateFailed => 500
    case Created(_, _) => 201
  }

  /** What the group serializer accepts: the name validators, and a description that is
      not blank once white space is trimmed from both ends and then at most 200 characters
      long. */
  predicate GroupFieldsValid(name: string, description: string) {
    Models.GroupNameValid(name) && Py.Strip(description) != "" && |Py.Strip(description)| <= 200
  }

  /** The POST branch of `pattern_list_create`. An absent name or description makes a
      write fail on a NOT NULL column (500). A new group is stored with the description
      the serializer trimmed and the pattern gets `""`; an existing group is left alone
      and the pattern gets the description as sent. The pattern starts from the default YAML, so the
      save fails (500) only if that text does not pass `clean`. */
  function CreateOutcome(t: Tables, check: GroupCheck, superuser: bool, name: Option<string>,
                         description: Option<string>, defaultYaml: string,
                         load: Bom.YamlLoader, eval: Bom.Evaluator, catalog: Bom.Catalog)
    : (r: (CreateResponse, Tables))
    ensures r.0 == CreateUnauthorized <==> !superuser
    ensures !superuser ==> r.1 == t
    ensures r.1.patterns != t.patterns ==> r.0.Created?
  {
    if !superuser then (CreateUnauthorized, t)
    else if name.None? || description.None? then (CreateFailed, t)
    else
      var n := name.value;
      var d := description.value;
      var existed := n in t.groups;
      if !existed && !GroupFieldsValid(n, d) then
        (InvalidGroup, if check == StoreThenValidate then t.(groups := t.groups[n := d]) else t)
      else
        var groups := if existed then t.groups else t.groups[n := Py.Strip(d)];
        AddVersion(t.(groups := groups), n, if existed then d else "", defaultYaml, load, eval, catalog)
  }

  /** `Pattern.objects.create` with the next version of the group: the default YAML must
      pass `clean`, otherwise the write fails (500). */
  function AddVersion(t: Tables, group: string, description: string, defaultYaml: string,
                      load: Bom.YamlLoader, eval: Bom.Evaluator, catalog: Bom.Catalog)
    : (r: (CreateResponse, Tables))
    ensures r.0 == CreateFailed || r.0.Created?
    ensures r.0 == CreateFailed ==> r.1 == t
  {
    var v := NewVersion(t, group);
    match Models.CleanResult(defaultYaml, load, eval, catalog)
    case Err(_) => (CreateFailed, t)
    case Ok(q) =>
      var row := Models.PatternRow(group, description, v, false, defaultYaml, q);
      (Created(t.nextId, v), t.(patterns := t.patterns[t.nextId := row], nextId := t.nextId + 1))
  }

  /** Lines 84 to 93 of the POST branch: allocate the version and save the new pattern. */
  method CreateVersion(db: Models.Database, group: string, description: string, defaultYaml: string,
                       load: Bom.YamlLoader, eval: Bom.Evaluator, catalog: Bom.Catalog)
    returns (r: CreateResponse)
    requires db.Valid() && group in db.groups
    modifies db
    ensures db.Valid()
    ensures (r, State(db)) == AddVersion(old(State(db)), group, description, defaultYaml, load, eval, catalog)
  {
    ghost var t := State(db);
    var v := NewVersion(State(db), group);
    NewVersionFresh(State(db), group);
    var p := new Models.Pattern(group, description, v, defaultYaml);
    assert Models.VersionFree(db.patterns, db.nextId, p.group, p.version);
    var saved := p.Save(db, load, eval, catalog);
    AddVersionCases(t, group, description, defaultYaml, load, eval, catalog);
    if saved.Err? {
      assert saved.error.Invalid?;
      assert State(db) == t;
      return CreateFailed;
    }
    ghost var row := Models.PatternRow(group, description, v, false, defaultYaml, p.questions);
    assert p.Row() == row;
    assert State(db) == t.(patterns := t.patterns[t.nextId := row], nextId := t.nextId + 1);
    return Created(saved.value, v);
  }

  /** `AddVersion` by the outcome of `clean` on the default YAML. */
  lemma AddVersionCases(t: Tables, group: string, description: string, defaultYaml: string,
                        load: Bom.YamlLoader, eval: Bom.Evaluator, catalog: Bom.Catalog)
    ensures var c := Models.CleanResult(defaultYaml, load, eval, catalog);
      var v := NewVersion(t, group);
      && (c.Err? ==> AddVersion(t, group, description, defaultYaml, load, eval, catalog) == (CreateFailed, t))
      && (c.Ok? ==> AddVersion(t, group, description, defaultYaml, load, eval, catalog)
                    == (Created(t.nextId, v),
                        t.(patterns := t.patterns[t.nextId := Models.PatternRow(group, description, v, false, defaultYaml, c.value)],
                           nextId := t.nextId + 1)))
  {
  }

  /** `pattern_list_create`, POST. */
  method CreatePattern(db: Models.Database, check: GroupCheck, superuser: bool, name: Option<string>,
                       description: Option<string>, defaultYaml: string,
                       load: Bom.YamlLoader, eval: Bom.Evaluator, catalog: Bom.Catalog)
    returns (r: CreateResponse)
    requires db.Valid()
    modifies db
    ensures db.Valid()
    ensures (r, State(db)) == CreateOutcome(old(State(db)), check, superuser, name, description, defaultYaml, load, eval, catalog)
  {
    ghost var expected := CreateOutcome(State(db), check, superuser, name, description, defaultYaml, load, eval, catalog);
    if !superuser {
      return CreateUnauthorized;
    }
    if name.None? || description.None? {
      return CreateFailed;
    }
    var n := name.value;
    var d := description.value;
    var created := n !in db.groups;
    if created {
      var valid := StoreNewGroup(db, check, n, d);
      if !valid {
        return InvalidGroup;
      }
    }
    r := CreateVersion(db, n, if created then "" else d, defaultYaml, load, eval, catalog);
  }

  /** Lines 68 to 80 for a group that does not exist yet: `get_or_create` stores it with the
      description as sent, and the serializer checks the fields and saves the trimmed
      description, in the order `check` gives. */
  method StoreNewGroup(db: Models.Database, check: GroupCheck, n: string, d: string) returns (valid: bool)
    requires db.Valid() && n !in db.groups
    modifies db
    ensures db.Valid()
    ensures valid == GroupFieldsValid(n, d)
    ensures State(db) == old(State(db)).(groups :=
      if valid then old(db.groups)[n := Py.Strip(d)]
      else if check == StoreThenValidate then old(db.groups)[n := d]
      else old(db.groups))
  {
    if check == StoreThenValidate {
      db.groups := db.groups[n := d];
    }
    if !GroupFieldsValid(n, d) {
      return false;
    }
    db.groups := db.groups[n := Py.Strip(d)];
    assert db.groups == old(db.groups)[n := Py.Strip(d)];
    return true;
  }

  /** Creating a pattern keeps the table constraints: the new row's group is stored and
      its version is fresh. */
  lemma CreateKeepsValid(t: Tables, check: GroupCheck, superuser: bool, name: Option<string>,
                         description: Option<string>, defaultYaml: string,
                         load: Bom.YamlLoader, eval: Bom.Evaluator, catalog: Bom.Catalog)
    requires Valid(t)
    ensures Valid(CreateOutcome(t, check, superuser, name, description, defaultYaml, load, eval, catalog).1)
  {
    var r := CreateOutcome(t, check, superuser, name, description, defaultYaml, load, eval, catalog);
    if r.0.Created? {
      var n := name.value;
      var groups := r.1.groups;
      NewVersionFresh(t, n);
      assert Models.TableValid(groups, t.patterns, t.nextId);
      Models.StoreKeepsValid(groups, t.patterns, t.nextId, t.nextId, r.1.patterns[t.nextId]);
    }
  }

  /** A created pattern is stored under the next id with the next version of its group,
      and the description goes to the pattern only when the group already existed. */
  lemma CreatedRow(t: Tables, check: GroupCheck, superuser: bool, name: Option<string>,
                   description: Option<string>, defaultYaml: string,
                   load: Bom.YamlLoader, eval: Bom.Evaluator, catalog: Bom.Catalog)
    requires Valid(t)
    requires CreateOutcome(t, check, superuser, name, description, defaultYaml, load, eval, catalog).0.Created?
    ensures var (r, u) := CreateOutcome(t, check, superuser, name, description, defaultYaml, load, eval, catalog);
      && name.Some? && description.Some? && r.id == t.nextId && r.id !in t.patterns && r.id in u.patterns
      && u.patterns[r.id].group == name.value && u.patterns[r.id].version == r.version && r.version >= 1
      && (forall id :: id in t.patterns && t.patterns[id].group == name.value ==> t.patterns[id].version < r.version)
      && (name.value in t.groups ==> u.patterns[r.id].description == description.value && u.groups == t.groups)
      && (name.value !in t.groups ==> u.patterns[r.id].description == "" && u.groups == t.groups[name.value := Py.Strip(description.value)])
      && Models.CleanResult(defaultYaml, load, eval, catalog) == Ok(u.patterns[r.id].questions)
  {
    NewVersionFresh(t, name.value);
  }

  /** With the default YAML parsing to the default document, a superuser's request
      naming an existing group, or a new group with valid fields, always creates the
      pattern, with the default questions. */
  lemma DefaultPatternCreated(t: Tables, check: GroupCheck, name: string, description: string,
                              defaultYaml: string, load: Bom.YamlLoader, eval: Bom.Evaluator, catalog: Bom.Catalog)
    requires load(defaultYaml) == Some(Models.DefaultDocument())
    requires name in t.groups || GroupFieldsValid(name, description)
    ensures var (r, u) := CreateOutcome(t, check, true, Some(name), Some(description), defaultYaml, load, eval, catalog);
      r.Created? && u.patterns[r.id].questions == List(Models.DefaultQuestions())
  {
    DefaultPattern.DefaultPatternClean(defaultYaml, load, eval, catalog);
    CreatedWhenClean(t, check, name, description, defaultYaml, load, eval, catalog, List(Models.DefaultQuestions()));
  }

  /** A superuser's request naming an existing group, or a new group with valid fields,
      creates the pattern whenever the default YAML passes `clean`. */
  lemma CreatedWhenClean(t: Tables, check: GroupCheck, name: string, description: string, defaultYaml: string,
                         load: Bom.YamlLoader, eval: Bom.Evaluator, catalog: Bom.Catalog, q: Value)
    requires Models.CleanResult(defaultYaml, load, eval, catalog) == Ok(q)
    requires name in t.groups || GroupFieldsValid(name, description)
    ensures var (r, u) := CreateOutcome(t, check, true, Some(name), Some(description), defaultYaml, load, eval, catalog);
      r.Created? && r.id in u.patterns && u.patterns[r.id].questions == q
  {
  }

  /** When fields are checked before the group is stored, only valid group names are
      ever stored. */
  lemma ValidateFirstKeepsNames(t: Tables, superuser: bool, name: Option<string>, description: Option<string>,
                                defaultYaml: string, load: Bom.YamlLoader, eval: Bom.Evaluator, catalog: Bom.Catalog)
    requires GroupNamesValid(t.groups)
    ensures GroupNamesValid(CreateOutcome(t, ValidateThenStore, superuser, name, description, defaultYaml, load, eval, catalog).1.groups)
  {
  }

  /** A rejected request leaves the tables as they were when fields are checked first. */
  lemma ValidateFirstRejectsCleanly(t: Tables, superuser: bool, name: Option<string>, description: Option<string>,
                                    defaultYaml: string, load: Bom.YamlLoader, eval: Bom.Evaluator, catalog: Bom.Catalog)
    ensures var (r, u) := CreateOutcome(t, ValidateThenStore, superuser, name, description, defaultYaml, load, eval, catalog);
      r == InvalidGroup ==> u == t
  {
  }

  const EmptyTables: Tables := Tables(map[], map[], 0)

  /** As written, the group is stored before its fields are checked: a POST naming the
      new group `Racks` is refused with 400 but leaves the group behind, and the same
      POST again then creates a pattern in a group whose name the validators reject. */
  lemma StoreFirstKeepsRejectedGroup(defaultYaml: string, load: Bom.YamlLoader, eval: Bom.Evaluator, catalog: Bom.Catalog)
    requires load(defaultYaml) == Some(Models.DefaultDocument())
    ensures var (r1, u1) := CreateOutcome(EmptyTables, StoreThenValidate, true, Some("Racks"), Some("racks"), defaultYaml, load, eval, catalog);
      && r1 == InvalidGroup && "Racks" in u1.groups && !GroupNamesValid(u1.groups)
      && CreateOutcome(u1, StoreThenValidate, true, Some("Racks"), Some("racks"), defaultYaml, load, eval, catalog).0.Created?
  {
    assert !Models.GroupNameValid("Racks") by {
      assert !Models.ScanName("Racks", true);
      assert !Models.ScanName("Racks"[..4], true);
    }
    var u1 := CreateOutcome(EmptyTables, StoreThenValidate, true, Some("Racks"), Some("racks"), defaultYaml, load, eval, catalog).1;
    DefaultPatternCreated(u1, StoreThenValidate, "Racks", "racks", defaultYaml, load, eval, catalog);
  }

  /** With the fields checked first, the same two requests are both refused and nothing
      is stored. */
  lemma ValidateFirstRefusesTwice(defaultYaml: string, load: Bom.YamlLoader, eval: Bom.Evaluator, catalog: Bom.Catalog)
    ensures var (r1, u1) := CreateOutcome(EmptyTables, ValidateThenStore, true, Some("Racks"), Some("racks"), defaultYaml, load, eval, catalog);
      && r1 == InvalidGroup && u1 == EmptyTables
      && CreateOutcome(u1, ValidateThenStore, true, Some("Racks"), Some("racks"), defaultYaml, load, eval, catalog) == (InvalidGroup, EmptyTables)
  {
    assert !Models.GroupNameValid("Racks") by {
      assert !Models.ScanName("Racks", true);
      assert !Models.ScanName("Racks"[..4], true);
    }
  }

  // ---------------------------------------------------------------------------
  // pattern_list_create, PATCH: a group's description
  // ---------------------------------------------------------------------------

  datatype GroupPatchResponse = GroupPatchUnauthorized | GroupPatchIncomplete | GroupNotFound | GroupUpdated

  function GroupPatchStatus(r: GroupPatchResponse): nat {
    match r
    case GroupPatchUnauthorized => 401
    case GroupPatchIncomplete => 400
    case GroupNotFound => 404
    case GroupUpdated => 200
  }

  /** The PATCH branch of `pattern_list_create`: a falsy name or an absent description is
      refused, an unknown group is 404, otherwise the description is replaced. */
  function PatchGroupOutcome(groups: map<string, string>, superuser: bool, name: Option<string>,
                             description: Option<string>): (r: (GroupPatchResponse, map<string, string>))
    ensures r.0 == GroupUpdated <==> superuser && name.Some? && name.value != "" && description.Some? && name.value in groups
    ensures r.0 == GroupPatchIncomplete <==> superuser && (name.None? || name.value == "" || description.None?)
    ensures r.0 != GroupUpdated ==> r.1 == groups
  {
    if !superuser then (GroupPatchUnauthorized, groups)
    else if name.None? || name.value == "" || description.None? then (GroupPatchIncomplete, groups)
    else if name.value !in groups then (GroupNotFound, groups)
    else (GroupUpdated, groups[name.value := description.value])
  }

  method PatchGroup(db: Models.Database, superuser: bool, name: Option<string>, description: Option<string>)
    returns (r: GroupPatchResponse)
    requires db.Valid()
    modifies db
    ensures db.Valid()
    ensures (r, db.groups) == PatchGroupOutcome(old(db.groups), superuser, name, description)
    ensures db.patterns == old(db.patterns) && db.nextId == old(db.nextId)
  {
    if !superuser {
      return GroupPatchUnauthorized;
    }
    if name.None? || name.value == "" || description.None? {
      return GroupPatchIncomplete;
    }
    if name.value !in db.groups {
      return GroupNotFound;
    }
    db.groups := db.groups[name.value := description.value];
    return GroupUpdated;
  }

  /** The group PATCH changes only the description of the named group: the set of
      groups, every other description and the patterns stay as they were. */
  lemma PatchGroupChangesOnlyDescription(t: Tables, superuser: bool, name: Option<string>, description: Option<string>)
    requires Valid(t)
    ensures var (r, groups) := PatchGroupOutcome(t.groups, superuser, name, description);
      && groups.Keys == t.groups.Keys
      && (forall n :: n in groups && (r != GroupUpdated || n != name.value) ==> groups[n] == t.groups[n])
      && (r == GroupUpdated ==> groups[name.value] == description.value)
      && Valid(t.(groups := groups))
      && (GroupNamesValid(t.groups) ==> GroupNamesValid(groups))
  {
  }

  // ---------------------------------------------------------------------------
  // get_edit_pattern, PATCH
  // ---------------------------------------------------------------------------

  /** The fields a pattern PATCH may carry. */
  datatype PatternPatch = PatternPatch(description: Option<string>, version: Option<int>,
                                       deprecated: Option<bool>, yaml: Option<string>)

  datatype PatternPatchResponse =
    | PatternNotFound
    | PatchUnauthorized
    | PatchInvalid
    | NoYaml
    | SaveRejected
    | PatternUpdated

  function PatternPatchStatus(r: PatternPatchResponse): nat {
    match r
    case PatternNotFound => 404
    case PatchUnauthorized => 401
    case PatternUpdated => 200
    case _ => 400
  }

  /** The partial pattern serializer, which trims white space from both ends of the text
      fields before checking them: a description of at most 200 characters, a version of at
      least 1, and a YAML text that is not blank and passes `validate_yaml`. */
  predicate PatchFieldsValid(req: PatternPatch, load: Bom.YamlLoader) {
    && (req.description.Some? ==> |Py.Strip(req.description.value)| <= 200)
    && (req.version.Some? ==> req.version.value >= 1)
    && (req.yaml.Some? ==>
          Py.Strip(req.yaml.value) != "" && Serializers.ValidateYamlResult(Py.Strip(req.yaml.value), load).Ok?)
  }

  /** The row after the validated fields are set on the instance: the description trimmed,
      and the YAML as sent, since the view then assigns the request's own text. */
  function Patched(row: Models.PatternRow, req: PatternPatch): Models.PatternRow {
    row.(description := if req.description.Some? then Py.Strip(req.description.value) else row.description,
         version := req.version.GetOr(row.version),
         deprecated := req.deprecated.GetOr(row.deprecated),
         yaml := req.yaml.GetOr(row.yaml))
  }

  /** What the table constraints demand of a row stored at `id`. */
  predicate Storable(t: Tables, id: nat, row: Models.PatternRow) {
    row.group in t.groups && row.version >= 0 && Models.VersionFree(t.patterns, id, row.group, row.version)
  }

  /** `pattern.save()` for an edited row at its own id: `clean` runs first, then the
      table constraints; either failure is 400 with nothing stored. */
  function SaveOutcome(t: Tables, id: nat, row: Models.PatternRow,
                       load: Bom.YamlLoader, eval: Bom.Evaluator, catalog: Bom.Catalog)
    : (r: (PatternPatchResponse, Tables))
    ensures r.0 == PatternUpdated || r.0 == SaveRejected
    ensures r.0 == SaveRejected ==> r.1 == t
  {
    match Models.CleanResult(row.yaml, load, eval, catalog)
    case Err(_) => (SaveRejected, t)
    case Ok(q) =>
      if !Storable(t, id, row) then (SaveRejected, t)
      else (PatternUpdated, t.(patterns := t.patterns[id := row.(questions := q)]))
  }

  /** The inner `try` of the PATCH branch: save the edited instance. */
  method SaveEdited(db: Models.Database, p: Models.Pattern, id: nat,
                    load: Bom.YamlLoader, eval: Bom.Evaluator, catalog: Bom.Catalog)
    returns (r: PatternPatchResponse)
    requires db.Valid() && p.id == Some(id) && id in db.patterns
    modifies db, p
    ensures db.Valid()
    ensures (r, State(db)) == SaveOutcome(old(State(db)), id, old(p.Row()), load, eval, catalog)
  {
    var saved := p.Save(db, load, eval, catalog);
    if saved.Err? {
      return SaveRejected;
    }
    return PatternUpdated;
  }

  /** `get_edit_pattern`, PATCH: 404 before 401; invalid fields and a missing `yaml` are
      refused without saving; otherwise the patched row is saved. */
  function PatchPatternOutcome(t: Tables, id: nat, superuser: bool, req: PatternPatch,
                               load: Bom.YamlLoader, eval: Bom.Evaluator, catalog: Bom.Catalog)
    : (r: (PatternPatchResponse, Tables))
    ensures r.0 == PatternNotFound <==> id !in t.patterns
    ensures r.0 == PatchUnauthorized <==> id in t.patterns && !superuser
    ensures r.0 != PatternUpdated ==> r.1 == t
    ensures req.yaml.None? ==> r.0 != PatternUpdated
  {
    if id !in t.patterns then (PatternNotFound, t)
    else if !superuser then (PatchUnauthorized, t)
    else if !PatchFieldsValid(req, load) then (PatchInvalid, t)
    else if req.yaml.None? then (NoYaml, t)
    else SaveOutcome(t, id, Patched(t.patterns[id], req), load, eval, catalog)
  }

  /** `serializer.is_valid()` for a partial pattern update. */
  method CheckPatchFields(req: PatternPatch, load: Bom.YamlLoader) returns (valid: bool)
    ensures valid == PatchFieldsValid(req, load)
  {
    if req.yaml.Some? {
      var text := Py.Strip(req.yaml.value);
      var checked := Serializers.ValidateYaml(text, load);
      if text == "" || checked.Err? {
        return false;
      }
    }
    return !((req.description.Some? && |Py.Strip(req.description.value)| > 200) || (req.version.Some? && req.version.value < 1));
  }

  method PatchPattern(db: Models.Database, id: nat, superuser: bool, req: PatternPatch,
                      load: Bom.YamlLoader, eval: Bom.Evaluator, catalog: Bom.Catalog)
    returns (r: PatternPatchResponse)
    requires db.Valid()
    modifies db
    ensures db.Valid()
    ensures (r, State(db)) == PatchPatternOutcome(old(State(db)), id, superuser, req, load, eval, catalog)
  {
    if id !in db.patterns {
      return PatternNotFound;
    }
    var p := new Models.Pattern.Stored(id, db.patterns[id]);
    if !superuser {
      return PatchUnauthorized;
    }
    var valid := CheckPatchFields(req, load);
    if !valid {
      return PatchInvalid;
    }
    r := PatchAndSave(db, p, id, req, load, eval, catalog);
  }

  /** The validated fields are set on the instance (absent ones keep their value); without
      `yaml` nothing is saved, otherwise the patched row is. */
  method PatchAndSave(db: Models.Database, p: Models.Pattern, id: nat, req: PatternPatch,
                      load: Bom.YamlLoader, eval: Bom.Evaluator, catalog: Bom.Catalog)
    returns (r: PatternPatchResponse)
    requires db.Valid() && id in db.patterns && p.id == Some(id) && p.Row() == db.patterns[id]
    modifies db, p
    ensures db.Valid()
    ensures req.yaml.None? ==> r == NoYaml && State(db) == old(State(db))
    ensures req.yaml.Some? ==>
      (r, State(db)) == SaveOutcome(old(State(db)), id, Patched(old(p.Row()), req), load, eval, catalog)
  {
    ghost var row := p.Row();
    if req.description.Some? {
      p.description := Py.Strip(req.description.value);
    }
    p.version := req.version.GetOr(p.version);
    p.deprecated := req.deprecated.GetOr(p.deprecated);
    if req.yaml.None? {
      return NoYaml;
    }
    p.yaml := req.yaml.value;
    assert p.Row() == Patched(row, req);
    r := SaveEdited(db, p, id, load, eval, catalog);
  }

  /** A pattern PATCH keeps the table constraints. */
  lemma PatchPatternKeepsValid(t: Tables, id: nat, superuser: bool, req: PatternPatch,
                               load: Bom.YamlLoader, eval: Bom.Evaluator, catalog: Bom.Catalog)
    requires Valid(t)
    ensures Valid(PatchPatternOutcome(t, id, superuser, req, load, eval, catalog).1)
  {
    var (r, u) := PatchPatternOutcome(t, id, superuser, req, load, eval, catalog);
    if r == PatternUpdated {
      Models.StoreKeepsValid(t.groups, t.patterns, t.nextId, id, u.patterns[id]);
    }
  }

  /** An accepted PATCH stores exactly the patched row at its own id: the YAML as sent, with
      the questions `clean` computed from it, after the trimmed text passed `validate_yaml`,
      and the description trimmed; every other row is untouched. */
  lemma PatchedPatternIsClean(t: Tables, id: nat, superuser: bool, req: PatternPatch,
                              load: Bom.YamlLoader, eval: Bom.Evaluator, catalog: Bom.Catalog)
    requires PatchPatternOutcome(t, id, superuser, req, load, eval, catalog).0 == PatternUpdated
    ensures var u := PatchPatternOutcome(t, id, superuser, req, load, eval, catalog).1;
      && superuser && req.yaml.Some? && id in t.patterns && u.patterns.Keys == t.patterns.Keys
      && u.patterns[id].yaml == req.yaml.value
      && u.patterns[id].group == t.patterns[id].group
      && Models.CleanResult(req.yaml.value, load, eval, catalog) == Ok(u.patterns[id].questions)
      && Serializers.ValidateYamlResult(Py.Strip(req.yaml.value), load).Ok?
      && (req.description.Some? ==> u.patterns[id].description == Py.Strip(req.description.value))
      && (forall other :: other in t.patterns && other != id ==> u.patterns[other] == t.patterns[other])
  {
  }
}
