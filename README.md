# ABC pattern engine — a Dafny model

ABC is a catalogue and administration tool that builds bills of materials (BOMs). A
*pattern* is a YAML document with two lists. `questions` are typed prompts: integer
(optionally with `min`/`max`), boolean, or enum (with `choices`). `products` are rules.
Each rule's `add` is either a `raw` row copied verbatim into the BOM, or a product part
number (`add.product`) with a `quantity`, under an optional `condition`. The quantity is a
literal or a Python expression over the answers, and the condition is a Python expression. Patterns live in groups. Each pattern is stored as a numbered version, and
the newest version is the one that is built.

This project models the logic at the core of that system, one Dafny module per source
file:

- `Bom` (`bom.dfy`) is BOM generation. It checks every answer against its question, then
  runs the rules in order: conditions, quantities, merging equal parts and raw rows, and
  the final checks against the catalogue. `BomProperties` proves what the rule loop keeps
  and what it merges.
- `Models` covers pattern cleaning, the group-name pattern and the versioned pattern
  table. The `Pattern` class models `clean`/`save` over a `Database` of rows.
  `DefaultPattern` proves that the built-in default pattern is clean.
- `Serializers` covers the question listing, YAML validation and the name checks.
- `Views` covers `download_bom` argument checks, version allocation on POST, and the
  PATCH checks for groups and patterns.
- `YamlEditor` is the editor's inline validator. It produces diagnostics with offsets into
  the text for questions and rules, and reports variables a rule uses that no question
  declares.
- `BuildPage` is the build form. It models the initial answers, the number field's
  `isAllowed`/clear-to-default behaviour, the e-mail check and when Send is enabled.
- `PatternPage` is the pattern page. It models grouping the listing by group, creating a
  pattern and saving a description.
- `ItemList` is the list filter.
- `ApiErrors` models `formatErrors`, `capitalize` and `parseError` from the API provider.
- `TagVersions` covers picking the last dated tag, computing the next tag, and the guard
  on the framework image.
- `NewJob` covers the job generator's parsing of the repository URL and its construction
  of the project name, image reference and job page.

Support modules:

- `Python` models Python values: `==`, truthiness, `int()`, and insertion-ordered dicts.
- `JsValues` models the JavaScript semantics the pages rely on: truthiness, `String()`,
  `?.`/`??`, `includes` and the names every object inherits.
- `YamlValue`, `Strings` and `Wrappers` hold the YAML value tree, string helpers and
  Result/Option.

Several operations are not implemented here and are passed in as parameters instead:

- the YAML loader;
- the expression evaluator (Python `eval`) and the editor's expression parser;
- the product catalogue;
- the current date;
- the container registry.

The pattern key that the editor validates is `rules`, while the backend reads `products`.
The model keeps both as the code has them. `clean`, `save` and the download key raw rows
as the code does, as `raw_<i>` among the part numbers; the keying that keeps them apart
appears only beside the finding about it. The code evaluates expressions with
Python's `eval` and the editor's expression library rather than with an engine of its
own, so expressions are oracles here.

## Model

| member | source | states |
|---|---|---|
| Bom.Elements | abc-backend/api/utils.py:86 | a list gives its items; anything else that the loop can visit gives no elements |
| Bom.FirstQuestionError | abc-backend/api/utils.py:32-58 | a reported error is the error of some question whose predecessors all accepted their answers |
| Bom.ValidateAnswers | abc-backend/api/utils.py:32-58 | the question loop returns exactly the first question error |
| Bom.AnswersAcceptedIff | abc-backend/api/utils.py:32-58 | the answers are accepted exactly when every question accepts its own answer |
| Bom.AcceptedAnswer | abc-backend/api/utils.py:33-58 | an accepted answer is present and not None; its type is integer, boolean or enum; an integer (or bool) lies within the min/max that are given; a boolean question has a bool; an enum answer equals one of its non-empty choices |
| Bom.UnboundedIntegerAccepted | abc-backend/api/utils.py:39-47 | an integer question without min and max accepts any integer, since the bounds default to the answer |
| Bom.IntegerWithinBounds | abc-backend/api/utils.py:39-47 | an integer between integer bounds is accepted |
| Bom.BooleanAnswered | abc-backend/api/utils.py:48-50 | a boolean question answered with a bool is accepted |
| Bom.ChoiceAnswered | abc-backend/api/utils.py:51-56 | an enum answer equal to one of its choices is accepted |
| Bom.FindKey | abc-backend/api/utils.py:124 | the position found holds an equal key with no equal key before it; none found means no equal key at all |
| Bom.RuleQuantity | abc-backend/api/utils.py:95-121 | an error is reported as quantity error of section i+1; a skipped rule had a falsy condition or none evaluated; a quantity is the int literal or the evaluated string, and exactly an int |
| Bom.CollectStopsAtError | abc-backend/api/utils.py:86-127 | once a rule raises, later rules do not change the outcome |
| Bom.ApplyRule | abc-backend/api/utils.py:87-127 | one pass of the rule loop body equals the rule step: raw row stored, example skipped, falsy condition skipped, quantity evaluated and merged |
| Bom.CollectParts | abc-backend/api/utils.py:85-127 | the rule loop returns exactly `Collect` over all rules, the recursive definition that the BomProperties lemmas characterise |
| Bom.EmitRow | abc-backend/api/utils.py:136-173 | a raw entry gives its cells when it is a list of at most 9 cells and fails as too long otherwise; a part gives the catalogue row with its quantity exactly when the product exists and has both a discount and a list price; otherwise "does not exist", or the TypeError of `float(None)`, for the discount before the list price |
| Bom.EmitRows | abc-backend/api/utils.py:136-173 | the row loop equals the rows of the entries in dict order, stopping at the first entry that fails: too long, not a list, unknown product, or missing discount or list price |
| Bom.RowsStopAtError | abc-backend/api/utils.py:136-173 | the first failing entry decides the outcome of the row loop |
| Bom.GenerateBom | abc-backend/api/utils.py:13-173 | the whole generation returns exactly `Generate`: parse, `products` key, answers, rules, empty-PDF check, rows; in either keying of raw rows, and the code's shared `raw_<i>` keys are what clean and the download use |
| BomProperties.CollectKeepsKeys | abc-backend/api/utils.py:124-127 | rows keep their first-insertion order: the dict after n rules is a key-for-key prefix of the dict after later rules |
| BomProperties.RawStepIgnoresAnswers | abc-backend/api/utils.py:90-92 | a raw rule's step depends neither on the answers nor on the evaluator |
| BomProperties.RawKeysDiffer | abc-backend/api/utils.py:92 | one key never stands for the raw rows of two different rules |
| BomProperties.RawEntryPersists | abc-backend/api/utils.py:92-127 | the entry holding raw row i stays at its place, unchanged, through every later rule |
| BomProperties.RawRuleCollected | abc-backend/api/utils.py:90-92 | a rule with a non-empty raw list is always in a successful collection, under rule i's key |
| BomProperties.ExampleRuleSkipped | abc-backend/api/utils.py:100-101 | the product "example" is skipped whatever its condition and quantity |
| BomProperties.FalseConditionSkipped | abc-backend/api/utils.py:105-106 | a falsy condition contributes nothing, and the quantity is never evaluated |
| BomProperties.BooleanQuantityRejected | abc-backend/api/utils.py:109-119 | a literal boolean quantity is rejected although isinstance(True, int) holds |
| BomProperties.StepMerges | abc-backend/api/utils.py:124-127 | one rule moves the merge invariant on by its own contribution, in either keying, for a part never taken for a raw row's key; under the code's shared keys a raw row overwriting an equal part is exactly what the hypothesis excludes |
| BomProperties.RawStepMerges | abc-backend/api/utils.py:90-92 | storing a raw row leaves the entry and total of a part kept apart from raw keys as they were |
| BomProperties.AddStepMerges | abc-backend/api/utils.py:123-127 | adding q of part x adds q to the entry of a part equal to x, creating the entry when there is none, and leaves the entry of any other part alone |
| BomProperties.AddsPartIff | abc-backend/api/utils.py:124-127 | the rule-by-rule and the existential forms of "some rule adds p" agree |
| BomProperties.MergedByRule | abc-backend/api/utils.py:124-127 | by induction over the rule loop, in either keying, the entry and total of a part never taken for a raw row's key match what the rules added |
| BomProperties.MergedQuantities | abc-backend/api/utils.py:123-127 | after the rule loop, in either keying, a part never taken for a raw row's key (under the code's shared keys: any part not equal to some `raw_<i>`) has an entry exactly when some rule added it, holding the sum of the added quantities |
| BomProperties.RawKeyIsNotPart | abc-backend/api/utils.py:92 | a dict key that stands for raw row i does not stand for a part that is kept apart from raw keys |
| BomProperties.NotRawNameApart | abc-backend/api/utils.py:92 | under the code's shared keys, a part that is not a string starting with `raw_` is never taken for a raw row's key |
| BomProperties.RowsOkIff | abc-backend/api/utils.py:136-173 | the row loop succeeds exactly when every entry gives a row (a list raw row of at most 9 cells, or a catalogued product with a discount and a list price), and then gives one row per entry in order |
| BomProperties.TooLongRawRowAborts | abc-backend/api/utils.py:141-142 | a raw row longer than the header aborts the whole BOM |
| BomProperties.UnknownProductAborts | abc-backend/api/utils.py:147-152 | a part missing from the catalog aborts the whole BOM |
| BomProperties.UnpricedProductAborts | abc-backend/api/utils.py:147-157 | a catalogued part without a discount or a list price aborts the whole BOM (the TypeError of `float(None)`) |
| BomProperties.GeneratedImpliesAccepted | abc-backend/api/utils.py:13-173 | a generated BOM implies a well-formed document, accepted answers, a successful rule loop and one row per entry |
| BomProperties.PdfBomNotEmpty | abc-backend/api/utils.py:130-132 | when a PDF is asked for, a generated BOM is never empty |
| BomProperties.DryRunNeverEmpty | abc-backend/api/utils.py:129-132 | the dry run used by clean never fails with an empty BOM |
| BomProperties.CollectErrorIsRuleError | abc-backend/api/utils.py:86-127 | the rule loop never reports an empty BOM |
| BomProperties.RowsErrorIsRowError | abc-backend/api/utils.py:136-157 | every error of the row loop is a row error: too long, not a list, unknown product, missing discount or missing list price |
| BomProperties.CableExampleNeeded | abc-backend/api/utils.py:13-173 | a worked document: with cables needed and three runs, and P1 catalogued with its prices, the BOM is one row of six P1 |
| BomProperties.CableExampleNotNeeded | abc-backend/api/utils.py:105-106 | with cables not needed, the dry run gives no rows |
| BomProperties.CableExampleNotNeededPdf | abc-backend/api/utils.py:130-132 | with cables not needed, a PDF request fails with "BOM is empty" |
| BomProperties.SharedKeysDropProduct | abc-backend/api/utils.py:92-127 | as written, product "raw_1" followed by a raw rule 1 loses the product and its quantity without an error |
| BomProperties.SharedKeysRejectProduct | abc-backend/api/utils.py:92-125 | as written, raw rule 0 followed by product "raw_0" fails the whole BOM |
| BomProperties.SeparateKeysKeepProduct | abc-backend/api/utils.py:92-127 | with raw rows keyed apart, the product keeps its quantity and the raw row follows it |
| BomProperties.SeparateKeysAcceptProduct | abc-backend/api/utils.py:92-127 | with raw rows keyed apart, the raw row and then the product are both collected |
| BomProperties.SeparateKeysNeverMergeIntoRaw | abc-backend/api/utils.py:92-127 | with raw rows keyed apart, part keys always hold quantities and raw keys raw rows, so the += never meets a raw entry |
| DefaultPattern.DefaultQuestionsScan | abc-backend/api/models.py:11-31 | the defaults of the placeholder YAML map num_racks to 2, power_cables to False and support_years to 3, in that order |
| DefaultPattern.DefaultAnswersAccepted | abc-backend/api/models.py:9-31 | the placeholder's defaults answer its own questions |
| DefaultPattern.DefaultRulesPass | abc-backend/api/models.py:35-61 | the placeholder's four rules pass the structure checks |
| DefaultPattern.ExampleRulesCollectNothing | abc-backend/api/utils.py:100-101 | rules for the product "example" collect nothing under any evaluator |
| DefaultPattern.DefaultPatternClean | abc-backend/api/models.py:9-62 | the placeholder pattern every new pattern starts with passes clean, whatever the evaluator and catalog, and stores its three questions |
| DefaultPattern.DefaultGenerates | abc-backend/api/models.py:159 | the dry run of the placeholder with its own defaults, under the code's shared keys, gives exactly the empty BOM |
| Models.ScanNameIff | abc-backend/api/models.py:71 | the two-state scanner accepts exactly the strings of [a-z0-9] segments separated by single dots |
| Models.GroupNamePatternIff | abc-backend/api/models.py:71 | the pattern ^[a-z0-9]+(\.[a-z0-9]+)*$ accepts exactly the dot-separated names |
| Models.GroupNameValidIff | abc-backend/api/models.py:65-75 | a name without a newline is valid exactly when it is dot-separated and at most 100 characters long |
| Models.RuleError | abc-backend/api/models.py:107-140 | a rule that passes is a dict with a non-empty add dict, and either a non-empty raw list or a string product, a string or integer quantity and, when truthy, a string condition |
| Models.FirstRuleErrorStops | abc-backend/api/models.py:107-110 | the first rule error ends the check |
| Models.FirstRuleErrorIff | abc-backend/api/models.py:107-140 | the rules pass exactly when each rule passes; a reported error is the first failing rule's error |
| Models.CheckRules | abc-backend/api/models.py:107-140 | the loop over the rules returns exactly the first rule error |
| Models.QuestionError | abc-backend/api/models.py:147-153 | a question passes exactly when it is a dict with name, type, prompt and default, and its name is hashable |
| Models.ScanQuestionsStops | abc-backend/api/models.py:147-155 | the first question error ends the scan |
| Models.DefaultsAreLastDefaults | abc-backend/api/models.py:146-155 | the defaults map answers each name with the default of the last question of that name and holds nothing else |
| Models.BuildDefaults | abc-backend/api/models.py:146-155 | the question loop returns exactly the scan's error or map |
| Models.ValidatePattern | abc-backend/api/models.py:93-164 | the body of clean returns exactly the clean result, whose dry run keys raw rows `raw_<i>` among the part numbers as the code does |
| Models.CleanAccepted | abc-backend/api/models.py:93-164 | an accepted pattern is a dict with products, every rule and question passes, and the dry run with the defaults, under the code's shared keys, succeeds |
| Models.QuestionPassed | abc-backend/api/models.py:147-153 | every question of a successful scan passes the field check |
| Models.CleanNeverEmptyBom | abc-backend/api/models.py:159 | clean never rejects a pattern because its BOM is empty |
| Models.ScanErrorIsQuestionError | abc-backend/api/models.py:147-153 | the question scan reports only structure errors, never a generation error |
| Models.CleanFromGeneration | abc-backend/api/models.py:156-164 | when the structure checks pass, clean reports exactly what the dry run under the code's shared keys reports |
| Models.StoreKeepsValid | abc-backend/api/models.py:79-89 | storing a row of a stored group with a non-negative version free within its group keeps the table constraints |
| Models.Database.constructor | abc-backend/api/models.py:64-89 | an empty database is valid |
| Models.Pattern.constructor | abc-backend/api/models.py:78-84 | a new pattern has no id and takes the field defaults: not deprecated, the default YAML, empty questions |
| Models.Pattern.Stored | abc-backend/api/models.py:78-84 | an instance loaded from the table holds the stored row |
| Models.Pattern.Clean | abc-backend/api/models.py:93-164 | on success the questions become the parsed questions of the clean result (dry run under the code's shared keys); on failure nothing changes |
| Models.Pattern.Save | abc-backend/api/models.py:93-169 | clean runs first, so a rejected pattern is never stored and keeps its questions; then the constraints decide, and an integrity error leaves the cleaned questions set; a failure keeps the id; a stored pattern keeps its id and a new one gets the next, and only that row changes |
| Serializers.GetQuestions | abc-backend/api/serializers.py:18-25 | the questions of a mapping's YAML, or [] when the text does not parse, is not a mapping, or lacks the key |
| Serializers.GetQuestionsAfterClean | abc-backend/api/serializers.py:18-25 | the serializer reports exactly the questions clean stored for the same text |
| Serializers.FirstMissing | abc-backend/api/serializers.py:37-39 | the first required field a question lacks, in checking order; none exactly when all are present |
| Serializers.QuestionName | abc-backend/api/serializers.py:35-40 | a question passes exactly when it is a non-empty mapping with the four fields, giving its name; a missing field is a validation error |
| Serializers.CheckQuestionsStops | abc-backend/api/serializers.py:34-43 | the first rejection ends the loop |
| Serializers.ValidateYamlResult | abc-backend/api/serializers.py:27-45 | an accepted value is returned unchanged |
| Serializers.ValidateYaml | abc-backend/api/serializers.py:27-45 | the loop with the growing name set returns exactly `ValidateYamlResult`, whose lemmas give the duplicate-name and missing-field cases |
| Serializers.SeenNames | abc-backend/api/serializers.py:33-43 | after n accepted questions the names seen are their names, in order, no two equal |
| Serializers.AcceptedQuestionsDistinct | abc-backend/api/serializers.py:27-45 | an accepted text has no two questions with equal names and every question has the four fields |
| Serializers.DuplicateRejected | abc-backend/api/serializers.py:40-42 | a text with two complete questions of equal names is rejected |
| Serializers.IncompleteQuestionRejected | abc-backend/api/serializers.py:35-39 | a non-empty question lacking a required field is rejected |
| Serializers.EmptyQuestionCrashes | abc-backend/api/serializers.py:35-40 | an empty mapping skips the field check and fails on question['name'] (a KeyError, not a validation error) |
| Serializers.ValidateName | abc-backend/api/serializers.py:80-83 | an accepted name is returned unchanged |
| Serializers.ValidateNameCaseBlind | abc-backend/api/serializers.py:80-83 | names differing only in letter case are accepted or rejected together |
| Serializers.ValidateNameRejectsSentinel | abc-backend/api/serializers.py:80-83 | None, NONE and none are rejected; Nonexistent and the empty name are not |
| Serializers.ValidateNameRejectsExactly | abc-backend/api/serializers.py:80-83 | exactly the four-letter spellings of none are rejected |
| Views.DownloadBom | abc-backend/api/views.py:20-48 | unknown pattern is 404; answers that are not an object are 400 before generation; a PDF comes only from a successful, non-empty PDF generation under the code's shared `raw_<i>` keys; otherwise the generation error |
| Views.MaxVersion | abc-backend/api/views.py:84 | none exactly when the group has no row; otherwise the greatest version of the group's rows |
| Views.NewVersionFresh | abc-backend/api/views.py:84-85 | the new version is at least 1, above every version of the group, one above the maximum when there is one, and free for the unique constraint |
| Views.CreateOutcome | abc-backend/api/views.py:58-93 | only a non-superuser gets 401, and then nothing changes; the patterns change only when a pattern is created; a new group is refused when its name fails the validators or its trimmed description is blank or longer than 200, and is stored with the trimmed description when accepted |
| Views.AddVersion | abc-backend/api/views.py:84-93 | creating the version either creates the pattern or fails with nothing stored |
| Views.CreateVersion | abc-backend/api/views.py:84-93 | allocating the version and saving gives the response and tables of `AddVersion` (version one above the group's highest) and keeps the tables valid |
| Views.CreatePattern | abc-backend/api/views.py:58-93 | the POST branch gives the response and tables of `CreateOutcome` and keeps the tables valid |
| Views.StoreNewGroup | abc-backend/api/views.py:68-80 | a new group is accepted exactly when its fields are valid; accepted, it is stored with the trimmed description; refused, it stays stored as sent only when the group is stored before the check; patterns and ids are untouched |
| Views.CreateKeepsValid | abc-backend/api/views.py:58-93 | creating a pattern keeps the table constraints |
| Views.CreatedRow | abc-backend/api/views.py:64-93 | a created pattern is stored under the next id with a fresh version of its group; the description goes to the pattern, as sent, only for an existing group, and a new group gets it trimmed instead |
| Views.DefaultPatternCreated | abc-backend/api/views.py:58-93 | a superuser's request for an existing group or a valid new one creates a pattern with the placeholder questions |
| Views.CreatedWhenClean | abc-backend/api/views.py:58-93 | such a request creates the pattern whenever the default YAML passes clean |
| Views.ValidateFirstKeepsNames | abc-backend/api/views.py:68-80 | with the fields checked before the group is stored, only valid group names are ever stored |
| Views.ValidateFirstRejectsCleanly | abc-backend/api/views.py:68-80 | with the fields checked first, a rejected request leaves the tables as they were |
| Views.StoreFirstKeepsRejectedGroup | abc-backend/api/views.py:68-80 | as written, a POST with the invalid name "Racks" is refused yet stores the group, and a second POST then creates a pattern in it |
| Views.ValidateFirstRefusesTwice | abc-backend/api/views.py:68-80 | with the fields checked first, both requests are refused and nothing is stored |
| Views.PatchGroupOutcome | abc-backend/api/views.py:95-111 | updated exactly for a superuser with a truthy name, a description and a stored group; incomplete exactly when the name is falsy or the description absent; otherwise nothing changes |
| Views.PatchGroup | abc-backend/api/views.py:95-111 | the PATCH branch gives the response and groups of `PatchGroupOutcome`, keeps the tables valid, and leaves the patterns and ids alone |
| Views.PatchGroupChangesOnlyDescription | abc-backend/api/views.py:105-109 | the group PATCH changes only the named group's description and keeps valid names valid |
| Views.SaveOutcome | abc-backend/api/views.py:138-142 | saving an edited row either updates it or is rejected with nothing stored |
| Views.SaveEdited | abc-backend/api/views.py:138-142 | saving the edited instance gives the response and tables of `SaveOutcome` and keeps the tables valid |
| Views.PatchPatternOutcome | abc-backend/api/views.py:115-148 | 404 exactly for an unknown id, 401 exactly for a non-superuser; fields are checked after trimming; nothing changes unless updated, and never without yaml |
| Views.CheckPatchFields | abc-backend/api/views.py:127-129 | the serializer check equals the field predicate: trimmed description at most 200, version at least 1, trimmed YAML not blank and passing validate_yaml |
| Views.PatchPattern | abc-backend/api/views.py:115-148 | the PATCH branch gives the response and tables of `PatchPatternOutcome` and keeps the tables valid |
| Views.PatchAndSave | abc-backend/api/views.py:130-144 | without yaml nothing is saved; otherwise the patched row, with the description trimmed and the YAML as sent, is saved |
| Views.PatchPatternKeepsValid | abc-backend/api/views.py:115-148 | a pattern PATCH keeps the table constraints |
| Views.PatchedPatternIsClean | abc-backend/api/views.py:122-142 | an accepted PATCH stores the patched row at its own id: the YAML as sent passing clean, its trimmed text passing validate_yaml, the description trimmed, the group kept and every other row untouched |
| YamlEditor.FindLine | abc-frontend/src/components/YamlEditor.tsx:45 | findIndex: the first line containing the needle, or -1 when none does |
| YamlEditor.LineInJoin | abc-frontend/src/components/YamlEditor.tsx:23-24 | line i sits in the text at its offset, right after a newline |
| YamlEditor.AnchorInText | abc-frontend/src/components/YamlEditor.tsx:45-47 | an anchored line is taken whole from the text, starting a line; without a match the range is (0, 1) |
| YamlEditor.SpanAfterLine | abc-frontend/src/components/YamlEditor.tsx:23-24 | the offsets of the lines grow by each line's length plus one |
| YamlEditor.SpanOfJoin | abc-frontend/src/components/YamlEditor.tsx:19 | the text is as long as the lines' lengths plus the separators |
| YamlEditor.AnchorBounded | abc-frontend/src/components/YamlEditor.tsx:46-47 | an anchored diagnostic lies within the text or is (0, 1) |
| YamlEditor.QuestionDiagnosticsIff | abc-frontend/src/components/YamlEditor.tsx:44-69 | at most one diagnostic per question, none exactly when the boolean and enum checks pass, anchored at "name: <name>" |
| YamlEditor.CheckQuestions | abc-frontend/src/components/YamlEditor.tsx:43-70 | the question loop can throw only by destructuring a nullish question |
| YamlEditor.QuestionsThrowIff | abc-frontend/src/components/YamlEditor.tsx:43-44 | the question loop throws exactly when some question is null |
| YamlEditor.QuestionsBounded | abc-frontend/src/components/YamlEditor.tsx:43-70 | at most one diagnostic per question, each within the text |
| YamlEditor.Names | abc-frontend/src/components/YamlEditor.tsx:49 | the declared names are exactly the questions' names |
| YamlEditor.ReportedNameOf | abc-frontend/src/components/YamlEditor.tsx:92 | the undefined-variable message gives back its variable |
| YamlEditor.UndeclaredSound | abc-frontend/src/components/YamlEditor.tsx:86-95 | every reported variable is one of the expression's and is not declared, at the rule's range |
| YamlEditor.UndeclaredComplete | abc-frontend/src/components/YamlEditor.tsx:86-95 | every undeclared variable of the expression is reported |
| YamlEditor.RuleDiagnostics | abc-frontend/src/components/YamlEditor.tsx:73-104 | every diagnostic of a rule lies within the text |
| YamlEditor.CheckRules | abc-frontend/src/components/YamlEditor.tsx:73-105 | the rule loop can throw only by destructuring a nullish rule |
| YamlEditor.RulesThrowIff | abc-frontend/src/components/YamlEditor.tsx:73-74 | the rule loop throws exactly when some rule is null |
| YamlEditor.RulesBounded | abc-frontend/src/components/YamlEditor.tsx:73-105 | every rule diagnostic lies within the text |
| YamlEditor.RuleReportsOnlyUndeclared | abc-frontend/src/components/YamlEditor.tsx:86-95 | a rule reports only variables that are not declared |
| YamlEditor.RulesReportOnlyUndeclared | abc-frontend/src/components/YamlEditor.tsx:73-105 | over all rules, only undeclared variables are reported |
| YamlEditor.RuleReportsUndeclared | abc-frontend/src/components/YamlEditor.tsx:83-95 | a rule whose quantity uses an undeclared variable reports it at the rule's range |
| YamlEditor.RulesReportUndeclared | abc-frontend/src/components/YamlEditor.tsx:73-105 | over all rules, every undeclared variable is reported |
| YamlEditor.Validate | abc-frontend/src/components/YamlEditor.tsx:17-108 | a syntax error gives one diagnostic over the whole text; every diagnostic has 0 <= from <= to and lies within the text or is (0, 1) |
| YamlEditor.ValidateThrowsIff | abc-frontend/src/components/YamlEditor.tsx:39-105 | validation throws exactly when the YAML loads and a question or rule is null, or questions or rules is not a list |
| YamlEditor.DeclaredNeverReported | abc-frontend/src/components/YamlEditor.tsx:87 | no declared question name is ever reported as undefined |
| YamlEditor.QuestionMessagesNotReported | abc-frontend/src/components/YamlEditor.tsx:56-66 | question diagnostics never read as undefined-variable reports |
| YamlEditor.UndeclaredReported | abc-frontend/src/components/YamlEditor.tsx:86-93 | every variable a quantity uses without a question declaring it is reported at its rule |
| YamlEditor.NothingToCheck | abc-frontend/src/components/YamlEditor.tsx:39-40 | a document without questions or rules gives no diagnostics |
| YamlEditor.OneRule | abc-frontend/src/components/YamlEditor.tsx:73-105 | a document with one rule and no questions gives that rule's diagnostics |
| YamlEditor.BareNameRule | abc-frontend/src/components/YamlEditor.tsx:83-95 | a quantity that is a bare name is reported exactly when the name is not declared |
| YamlEditor.InheritedNameSlipsThrough | abc-frontend/src/components/YamlEditor.tsx:87 | as written, a quantity naming an Object.prototype member (say "constructor") is not reported; with own-key lookup it is |
| YamlEditor.ValidateYamlInline | abc-frontend/src/components/YamlEditor.tsx:17-108 | the imperative linter equals the as-written validation |
| YamlEditor.ForEachQuestion | abc-frontend/src/components/YamlEditor.tsx:43-70 | the question forEach equals the question check, and fills questionVars with exactly the question names |
| YamlEditor.CheckQuestion | abc-frontend/src/components/YamlEditor.tsx:44-69 | one question's diagnostics, with its name bound to its default |
| YamlEditor.ForEachRule | abc-frontend/src/components/YamlEditor.tsx:73-105 | the rule forEach equals the rule check with the names in questionVars |
| YamlEditor.CheckRule | abc-frontend/src/components/YamlEditor.tsx:74-104 | one rule's diagnostics |
| YamlEditor.ForEachVariable | abc-frontend/src/components/YamlEditor.tsx:86-95 | the variables loop reports exactly the undeclared ones |
| JsValues.Get | abc-frontend/src/components/YamlEditor.tsx:39-40 | optional chaining gives a value exactly when the value is a mapping holding the key |
| BuildPage.DefaultsKeys | abc-frontend/src/pages/Build.tsx:70-73 | the initial answers hold exactly one entry per question name |
| BuildPage.DefaultsLastWins | abc-frontend/src/pages/Build.tsx:70-73 | a question whose name no later question repeats starts with its own default |
| BuildPage.InitialAnswers | abc-frontend/src/pages/Build.tsx:70-74 | the forEach equals the defaults, and a pattern without questions starts with no answers |
| BuildPage.Update | abc-frontend/src/pages/Build.tsx:125-143 | a change sets the question's answer and keeps every other answer |
| BuildPage.ClearingRestoresLoaded | abc-frontend/src/pages/Build.tsx:143 | clearing a numeric field right after loading leaves the loaded answers |
| BuildPage.UpdatesCommute | abc-frontend/src/pages/Build.tsx:125-143 | changes to different questions commute |
| BuildPage.NumberOfInteger | abc-frontend/src/pages/Build.tsx:140-142 | the field reads back every integer it writes |
| BuildPage.IntegerAllowedIff | abc-frontend/src/pages/Build.tsx:140-142 | an integer is allowed exactly when it lies within the bounds that are given |
| BuildPage.EmptyingRefusedAboveZero | abc-frontend/src/pages/Build.tsx:140-143 | as written, with a lower bound above zero, emptying the field is refused, so the answer cannot be cleared back to the default |
| BuildPage.EmptyingRestoresDefault | abc-frontend/src/pages/Build.tsx:140-143 | with the empty text always allowed, emptying restores the default, and every other edit is unchanged |
| BuildPage.EmailValidIff | abc-frontend/src/pages/Build.tsx:56 | the computed address check agrees with ^[^\s@]+@[^\s@]+\.[^\s@]+$ |
| BuildPage.SendEnabledIff | abc-frontend/src/pages/Build.tsx:53-62 | once an address is typed, Send is enabled exactly when the address matches and nothing is loading |
| BuildPage.Page.constructor | abc-frontend/src/pages/Build.tsx:19-24 | the page starts with no answers, no address and no error |
| BuildPage.Page.Load | abc-frontend/src/pages/Build.tsx:64-77 | loading the pattern resets the answers to the defaults and keeps the address and error |
| BuildPage.Page.Change | abc-frontend/src/pages/Build.tsx:125-143 | a reported change updates that answer only |
| BuildPage.Page.CheckEmail | abc-frontend/src/pages/Build.tsx:53-62 | the address and its error are stored; Send is then enabled exactly when the address matches |
| PatternPage.GroupingKeys | abc-frontend/src/pages/pe/Pattern.tsx:62-69 | the groups are exactly the names the patterns carry |
| PatternPage.GroupingOrder | abc-frontend/src/pages/pe/Pattern.tsx:62-69 | each group name is listed once, and the listed names are the groups |
| PatternPage.GroupingMembers | abc-frontend/src/pages/pe/Pattern.tsx:62-69 | every group holds exactly the patterns of its name, in API order |
| PatternPage.InGroupAbsent | abc-frontend/src/pages/pe/Pattern.tsx:62-69 | a name no pattern carries has no patterns |
| PatternPage.InGroupHas | abc-frontend/src/pages/pe/Pattern.tsx:62-69 | every pattern is in the group of its name |
| PatternPage.GroupsNonEmpty | abc-frontend/src/pages/pe/Pattern.tsx:64-67 | no group is empty |
| PatternPage.GroupSizesSum | abc-frontend/src/pages/pe/Pattern.tsx:62-69 | every pattern is shown exactly once: the group sizes add up to the number of patterns |
| PatternPage.AsWrittenIff | abc-frontend/src/pages/pe/Pattern.tsx:62-69 | the reduce succeeds exactly when no group is named after an Object.prototype member, and then gives the grouping |
| PatternPage.ConstructorGroupBreaksListing | abc-frontend/src/pages/pe/Pattern.tsx:64-67 | "constructor" is a valid group name, and one pattern in it makes the reduce throw |
| PatternPage.GroupPatterns | abc-frontend/src/pages/pe/Pattern.tsx:62-69 | the reduce loop returns exactly `ReduceAsWritten`, characterised by `AsWrittenIff` |
| PatternPage.ReduceStops | abc-frontend/src/pages/pe/Pattern.tsx:62-69 | once the reduce has thrown, later patterns do not matter |
| PatternPage.Page.constructor | abc-frontend/src/pages/pe/Pattern.tsx:39-52 | the page starts with an empty listing, empty fields and no requests |
| PatternPage.Page.Refresh | abc-frontend/src/pages/pe/Pattern.tsx:58-72 | a successful listing replaces the shown groups; a failed one keeps them; nothing else changes |
| PatternPage.Page.CreatePattern | abc-frontend/src/pages/pe/Pattern.tsx:79-90 | a new pattern needs both a name and a description, otherwise the missing-fields flag is set and nothing is sent; a new version is always sent |
| PatternPage.Page.SaveDescription | abc-frontend/src/pages/pe/Pattern.tsx:92-102 | a blank description is not sent; any other is sent for the group being edited |
| ItemList.FilteredIsSubsequence | abc-frontend/src/components/ItemList.tsx:24-29 | the filtered items keep their original order |
| ItemList.FilteredMembership | abc-frontend/src/components/ItemList.tsx:26-28 | an item is shown exactly when it is listed, its search text starts with the lowered search, and the filter accepts it |
| ItemList.EmptySearchKeepsAll | abc-frontend/src/components/ItemList.tsx:24-29 | an empty search without a filter shows every item |
| ItemList.EmptySearchKeepsAccepted | abc-frontend/src/components/ItemList.tsx:26-28 | an empty search shows exactly the items the filter accepts |
| ItemList.CaseBlind | abc-frontend/src/components/ItemList.tsx:25-27 | searches equal up to letter case show the same items |
| ItemList.NarrowingSearch | abc-frontend/src/components/ItemList.tsx:24-29 | typing more never adds items |
| ApiErrors.Capitalize | abc-frontend/src/components/APIProvider.tsx:173-175 | the first character upper-cased, the rest unchanged, the length kept |
| ApiErrors.CapitalizeIdempotent | abc-frontend/src/components/APIProvider.tsx:173-175 | capitalising twice is capitalising once |
| ApiErrors.TopLevel | abc-frontend/src/components/APIProvider.tsx:153 | the members for..in visits at the top, as an object |
| ApiErrors.FormatErrors | abc-frontend/src/components/APIProvider.tsx:138-171 | an absent or primitive payload gives the fallback; an object or array gives a string |
| ApiErrors.TraverseErrors | abc-frontend/src/components/APIProvider.tsx:152-168 | the recursive walk appends exactly the lines of the object's members, in order |
| ApiErrors.MemberLinesStep | abc-frontend/src/components/APIProvider.tsx:153-167 | appending one member's lines moves the walk on by one member |
| ApiErrors.PushEach | abc-frontend/src/components/APIProvider.tsx:157-159 | one line per array element, in order |
| ApiErrors.FormatErrorsWalk | abc-frontend/src/components/APIProvider.tsx:138-171 | formatting by walking the error object returns exactly `FormatErrors` |
| ApiErrors.LineCount | abc-frontend/src/components/APIProvider.tsx:152-168 | one line per array element plus one per primitive leaf |
| ApiErrors.ArrayMemberLines | abc-frontend/src/components/APIProvider.tsx:155-159 | an array member gives "Key: message" for each element, in order |
| ApiErrors.NestedMemberLines | abc-frontend/src/components/APIProvider.tsx:154-162 | a nested object is walked with the dotted key |
| ApiErrors.PrimitiveMemberLine | abc-frontend/src/components/APIProvider.tsx:163-166 | a payload of one primitive member gives exactly one line |
| ApiErrors.Truncate | abc-frontend/src/components/APIProvider.tsx:131 | at most 500 characters, a prefix of the text; a text of at most 500 characters is unchanged and a longer one is cut to its first 500 |
| ApiErrors.NextError | abc-frontend/src/components/APIProvider.tsx:124-136 | when the formatted errors are text, the stored error is that text cut to 500 characters, with a space added when it equals the last error; so it always differs from the last one and is at most 501 characters; nothing is stored exactly for a truthy primitive payload that is not a string |
| ApiErrors.RepeatedErrorGetsSpace | abc-frontend/src/components/APIProvider.tsx:133-135 | a repeated error is stored with a space appended; any other is stored as formatted |
| ApiErrors.ApiProvider.constructor | abc-frontend/src/components/APIProvider.tsx:120 | no error is shown at first |
| ApiErrors.ApiProvider.ParseError | abc-frontend/src/components/APIProvider.tsx:124-136 | the error is formatted, truncated and stored, and a stored error always changes what is shown |
| TagVersions.Year4 | abc-backend/tasks/tag_versions.py:53 | a four-digit year reads back as itself |
| TagVersions.FormatDate | abc-backend/tasks/tag_versions.py:51-53 | the date text has the form YYYY.MM.DD and reads back as the date |
| TagVersions.SeqDigits | abc-backend/tasks/tag_versions.py:39 | a sequence field holds at least one digit |
| TagVersions.LiteralDotsNarrower | abc-backend/tasks/tag_versions.py:39 | every tag the pattern with escaped dots accepts, the written one accepts too |
| TagVersions.MatchingTags | abc-backend/tasks/tag_versions.py:40 | the tags kept are exactly the tags the pattern matches |
| TagVersions.AllSome | abc-backend/tasks/tag_versions.py:43 | the tuple of ints exists exactly when every part converts, and then holds each part's value |
| TagVersions.TupleLessIrreflexive | abc-backend/tasks/tag_versions.py:43 | no tuple is less than itself |
| TagVersions.TupleLessTransitive | abc-backend/tasks/tag_versions.py:43 | tuple order is transitive |
| TagVersions.TupleLessTotal | abc-backend/tasks/tag_versions.py:43 | distinct tuples are ordered one way and never both |
| TagVersions.ArgMax | abc-backend/tasks/tag_versions.py:43 | max returns the first of the greatest keys |
| TagVersions.LastTag | abc-backend/tasks/tag_versions.py:28-45 | not found exactly for a 404 or when no tag matches; a found tag is a matching tag with a key that no other matching tag exceeds |
| TagVersions.NewTag | abc-backend/tasks/tag_versions.py:48-63 | no last tag gives today's .1; another failure propagates; a new tag is today's date with some sequence |
| TagVersions.FmkContainer | abc-backend/tasks/tag_versions.py:66-131 | a get_tag other than last or new is refused; a result is image_ref:tag on the right registry |
| TagVersions.CorrectedLastTagNeverBadText | abc-backend/tasks/tag_versions.py:39-43 | with escaped dots every kept tag has a key, so max never raises, and a tag is found exactly when one matches |
| TagVersions.SequenceComparedAsNumber | abc-backend/tasks/tag_versions.py:41-43 | on the same day, sequence numbers compare as numbers (.10 after .9) |
| TagVersions.NewTagForm | abc-backend/tasks/tag_versions.py:48-63 | a new tag has the form the filter accepts, and its key is today's date and its sequence |
| TagVersions.NewTagAfter | abc-backend/tasks/tag_versions.py:60-63 | a last tag of today gets the next sequence number; one of another day restarts at 1 |
| TagVersions.NewTagSortsAfter | abc-backend/tasks/tag_versions.py:58-63 | unless the last tag is dated after today, the new tag sorts after it |
| TagVersions.NewTagIsFresh | abc-backend/tasks/tag_versions.py:40-63 | with escaped dots, unless the last tag is dated after today, the new tag sorts after every tag of the prefix, so it is not one of them |
| TagVersions.LoneUnkeyedTag | abc-backend/tasks/tag_versions.py:40-43 | a lone tag that passes the filter but has no key makes get_last_tag fail |
| TagVersions.LoneFilteredTag | abc-backend/tasks/tag_versions.py:40-45 | a lone tag the filter drops gives "not found" |
| TagVersions.UnescapedDotsLetThroughUnkeyedTag | abc-backend/tasks/tag_versions.py:39-43 | as written, prefix-2024x01x02x3 passes the filter, has no key and makes get_last_tag fail; with escaped dots it is filtered out |
| NewJob.SplitLines | abc-backend/setup/templates/generate_new_job.py:34 | the lines contain no line breaks |
| NewJob.SplitFirstLine | abc-backend/setup/templates/generate_new_job.py:34 | a line ended by \n is split off the front |
| NewJob.FirstPushUrl | abc-backend/setup/templates/generate_new_job.py:35-39 | a URL exactly when some line is a push line; it is the URL of the first push line |
| NewJob.ParseGitRemoteShowOutput | abc-backend/setup/templates/generate_new_job.py:12-39 | the loop returns the first push line's URL, or the error when there is none |
| NewJob.SkipLine | abc-backend/setup/templates/generate_new_job.py:35-36 | a first line that is not a push line is passed over |
| NewJob.PushLineDecides | abc-backend/setup/templates/generate_new_job.py:35-38 | the first push line decides; nothing after it is read |
| NewJob.StripIndented | abc-backend/setup/templates/generate_new_job.py:36-37 | leading white space and trimmed text strip to that text |
| NewJob.MarkedUrl | abc-backend/setup/templates/generate_new_job.py:37 | the marker, a space and a trimmed address strip to the address |
| NewJob.PushLineUrl | abc-backend/setup/templates/generate_new_job.py:36-37 | an indented push line is a push line and gives its address |
| NewJob.HeaderLine | abc-backend/setup/templates/generate_new_job.py:25 | the header line is not a push line |
| NewJob.FetchLine | abc-backend/setup/templates/generate_new_job.py:26 | the fetch line is not a push line |
| NewJob.RemoteShowOutput | abc-backend/setup/templates/generate_new_job.py:24-32 | the documented output, indented or not, gives the address on its push line |
| NewJob.DoctestPushUrl | abc-backend/setup/templates/generate_new_job.py:24-32 | the documented example returns git@gitlab.onefiserv.net:rundeck/download-link.git |
| NewJob.HostEnd | abc-backend/setup/templates/generate_new_job.py:59 | the lazy group stops at the first colon of the line, if there is one |
| NewJob.NewlineOrEnd | abc-backend/setup/templates/generate_new_job.py:59 | the greedy group runs to the end of the line |
| NewJob.ConstructGitlabProjectUrl | abc-backend/setup/templates/generate_new_job.py:42-69 | the page always ends with / |
| NewJob.HostEndAt | abc-backend/setup/templates/generate_new_job.py:59 | after git@, a host without a colon ends at the colon that follows it |
| NewJob.SshRewritten | abc-backend/setup/templates/generate_new_job.py:58-59 | git@host:path becomes https://host/path |
| NewJob.SubWithoutColon | abc-backend/setup/templates/generate_new_job.py:59 | a text without a colon is not rewritten |
| NewJob.HttpsProjectPage | abc-backend/setup/templates/generate_new_job.py:52-67 | an HTTPS address ending in .git gives its page with .git replaced by / |
| NewJob.SshProjectPage | abc-backend/setup/templates/generate_new_job.py:54-59 | the SSH address of a project gives the same page as its HTTPS address |
| NewJob.SameRewrite | abc-backend/setup/templates/generate_new_job.py:58-59 | two addresses with the same HTTPS form give the same page |
| NewJob.PageFixed | abc-backend/setup/templates/generate_new_job.py:62-67 | a page ending in / is its own page unless it can still be rewritten |
| NewJob.SshPageIsHttps | abc-backend/setup/templates/generate_new_job.py:58-59 | a rewritten one-line SSH address gives a page starting with https |
| NewJob.NoColonAfterGit | abc-backend/setup/templates/generate_new_job.py:58-59 | an SSH address without a colon on its line is left as it is |
| NewJob.ConstructIdempotent | abc-backend/setup/templates/generate_new_job.py:42-69 | on a one-line address the construction is idempotent |
| NewJob.DoctestProjectPages | abc-backend/setup/templates/generate_new_job.py:51-55 | both documented examples give https://gitlab.onefiserv.net/rundeck/download-link/ |
| NewJob.JobsPage | abc-backend/setup/templates/generate_new_job.py:79-80 | the jobs page is the project page computed from the push address followed by `-/jobs`, so it ends with /-/jobs |
| NewJob.DoctestJobsPage | abc-backend/setup/templates/generate_new_job.py:79-80 | the documented SSH address gives the jobs page https://gitlab.onefiserv.net/rundeck/download-link/-/jobs |
| NewJob.ProjectName | abc-backend/setup/templates/generate_new_job.py:92-93 | the project name is never empty: an empty input becomes sandbox, any other is kept |
| NewJob.ImageRef | abc-backend/setup/templates/generate_new_job.py:94-96 | a reference with a - is cut before its last -, which leaves no - in the cut part; one without is kept |
| Python.EqSymmetric | abc-backend/api/utils.py:55 | Python == is symmetric on the values modelled |
| Python.EqTransitive | abc-backend/api/utils.py:55 | Python == is transitive on the values modelled |
| Python.ToInt | abc-backend/api/utils.py:40-47 | int() of an int is its value and of a bool is 0 or 1; a string is parsed after strip(); None, lists and dicts raise (floats are outside the value model) |
| Python.Get | abc-backend/api/utils.py:35 | dict.get finds a value exactly when the dict holds an equal key |
| Python.Set | abc-backend/api/utils.py:127 | an existing key keeps its place, a new key goes last |
| Python.GetSet | abc-backend/api/utils.py:125-127 | after d[key] = value, an equal key looks up value and any other key is unchanged |
| Python.FindAfter | abc-backend/api/utils.py:124 | a key absent from d is found in d + tail only inside tail |
| Python.FindPrefix | abc-backend/api/utils.py:124 | appending entries does not move a key that is already present |
| Strings.Lower | abc-frontend/src/components/ItemList.tsx:25-27 | lower-casing keeps the length and lowers each character in place |
| Strings.Split | abc-frontend/src/components/YamlEditor.tsx:19 | text.split gives at least one part, none holding the separator |
| Strings.JoinSplit | abc-frontend/src/components/YamlEditor.tsx:23-24 | joining the split parts with the separator gives the text back |
| Strings.LastIndex | abc-backend/setup/templates/generate_new_job.py:96 | the position of the last occurrence of a character, with none after it; none when it does not occur |

## Left out

- Floating point: Python floats are not in the value model, so a float answer or quantity falls under "not an int" or "not a number". A float `min` or `max` bound, which `int()` truncates and the code accepts, is refused here as an invalid bound. Build's number field uses `real`, without rounding.
- Pricing and output: `round_currency`, the `format_*` helpers, the Excel workbook, the PDF and the e-mail are outside the engine. Generation is modelled up to the rows that would be written and the catalogue checks, including the `TypeError` a missing discount or list price raises. Prices are kept as `real` and never computed.
- Parsing and evaluation are oracle parameters: YAML loading (`yaml.safe_load` / js-yaml), Python `eval`, the editor's expression parser and its variable list, and the product catalogue (`Product.objects.get`). YAML aliases and anchors that share nodes are not modelled.
- Case folding and character classes: `toLowerCase` and `\d` are modelled on ASCII only. Unicode case mappings and Unicode digits are not modelled.
- UTF-16: JavaScript strings count UTF-16 code units, while the model counts characters. Offsets differ for text outside the Basic Multilingual Plane.
- PatternPage.GroupingOrder: `Object.entries` (abc-frontend/src/pages/pe/Pattern.tsx:191) lists integer-like keys first, in ascending numeric order, and the validators accept group names such as `2` and `10`. The model keeps the order in which groups are first met for every name, so for such names its display order differs from the page's.
- ApiErrors.TopLevel: `for..in` (abc-frontend/src/components/APIProvider.tsx:153) visits integer-like keys of an error payload first, in ascending numeric order. The model visits every key in the payload's own order, so for such keys the joined message lists them in a different order.
- Serializers.ValidateYamlResult: a non-empty mapping given as `questions` is rejected as `MappingQuestions`. The code iterates its keys as strings and looks for the required fields as substrings of each key, then fails on `question['name']`; whether that ends as a missing-field error or a crash depends on the key order, which the value model's mappings do not keep.
- TagVersions.LastTag: a registry answer whose `tags` is `null` cannot be represented, since the answer holds a list of strings. The code iterates it at abc-backend/tasks/tag_versions.py:40 and raises a TypeError.
- YAML mappings with keys that are not strings (numbers, booleans, null) cannot be represented: a mapping value holds a map from strings.
- A question named `__proto__`, and mappings that bring their own `toString`/`valueOf`, are not modelled.
- JavaScript numbers are unbounded integers here. Precision above 2^53 and `Number()` forms outside decimal integers with an optional sign and fraction are not modelled. Neither is NumericFormat's `floatValue` for a lone `-`.
- `includes` on floats (`NaN`, `-0`) is not modelled, because values carry no floats.
- The tag prefix is taken literally. A prefix containing regular-expression metacharacters behaves differently in the source. `int()` with underscores, and month lengths in dates, are not modelled.
- `get_fmk_container`'s retry loop, its `sleep` and `make_post_request` are left out. The registry's answer is a parameter (`Response`), and so is the current date (`datetime.utcnow`).
- Generating the job: the `git` subprocess, `getpass`, `input` and the template's `.format` are left out. The model covers the text they feed in and the values derived from it (`ProjectName`, `ImageRef`, `JobsPage`).
- HTTP, ORM and permissions are left out: Django's request plumbing, `permissions.py`, the ORM beyond the `Database` rows, the API provider's interceptors and token refresh, and reading a `Blob` error body with `JSON.parse`.
- Rendering: React state updates are modelled as the new answers or listing. The components and the CodeMirror linter wiring are not modelled, and neither is the severity the linter shows.
- Views.CreateOutcome: a new group name with white space at either end is not modelled. The serializer validates and saves the trimmed name, which as the primary key writes a second group beside the untrimmed one `get_or_create` stored. The model validates the name as sent.
- Models.Pattern.Save: the `MinValueValidator(1)` on `version` is not enforced, because Django runs field validators only in `full_clean`, which `save` does not call. The table demands only a non-negative version (`PositiveIntegerField`). Every version that `Views` allocates is at least 1.
- YamlEditor.CheckQuestions: its own contract states only which diagnostics can appear. What each question contributes is proved in the lemmas beside it (`QuestionsBounded`, `QuestionMessagesNotReported`).
- YamlEditor.CheckRules: its own contract states only which diagnostics can appear. The lemmas `UndeclaredReported` and `DeclaredNeverReported` prove which names are reported.

## Findings

| source | as written | input that shows it | evidently intended | confidence | as-written member | corrected member |
|---|---|---|---|---|---|---|
| abc-backend/api/utils.py:92-127 | raw rows are stored under the key `raw_<i>`, which shares the space of product part numbers | a product `raw_1` followed by a raw rule at index 1 (the product is dropped silently); a raw rule at index 0 followed by a product `raw_0` (the `+=` fails on a raw entry) | raw rows keyed apart from parts, so products keep their quantities | not executed | BomProperties.SharedKeysDropProduct | BomProperties.SeparateKeysKeepProduct |
| abc-backend/tasks/tag_versions.py:39 | the tag filter's dots are not escaped, so they match any character | a tag `<prefix>-2024x01x02x3` passes the filter, has no numeric key, and `get_last_tag` fails | literal dots, so every accepted tag has a sort key | not executed | TagVersions.UnescapedDotsLetThroughUnkeyedTag | TagVersions.CorrectedLastTagNeverBadText |
| abc-backend/api/views.py:68-80 | the group is fetched or created before the serializer validates the request | POST with a new group `Racks`: refused with 400, but the group stays, and the same POST again creates a pattern in it | check the fields before storing anything | not executed | Views.StoreFirstKeepsRejectedGroup | Views.ValidateFirstRefusesTwice |
| abc-frontend/src/pages/pe/Pattern.tsx:62-69 | the grouping `reduce` looks a group up with `acc[group]` on a plain object, so inherited names hit `Object.prototype` | a pattern in the valid group `constructor`: `push` is not a function and the listing fails | group by own keys only | not executed | PatternPage.ConstructorGroupBreaksListing | PatternPage.AsWrittenIff |
| abc-frontend/src/pages/Build.tsx:140-143 | `isAllowed` compares the raw text, so the empty text counts as `0` | a question with `min: 1`: emptying the field is refused, so it never goes back to the default | the empty field is always accepted and restores the default | not executed | BuildPage.EmptyingRefusedAboveZero | BuildPage.EmptyingRestoresDefault |
| abc-frontend/src/components/YamlEditor.tsx:87 | `v in questionVars` also finds names that every object inherits | a quantity `constructor` with no such question, provided the expression parser's `variables()` returns that name: no diagnostic | report every name that no question declares | not executed | YamlEditor.InheritedNameSlipsThrough | YamlEditor.UndeclaredReported |
