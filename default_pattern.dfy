/** The placeholder document every new pattern starts with, and the proof that it
    always passes `clean`. */
module DefaultPattern {
  import opened Wrappers
  import opened YamlValue
  import Py = Python
  import Bom
  import BomProperties
  import opened Models

  /** A well-formed question whose name is new adds its name and default at the end. */
  lemma ScanAppends(qs: seq<Value>, n: nat, defaults: Bom.Answers)
    requires n < |qs| && ScanQuestions(qs, n) == Ok(defaults) && QuestionError(n, qs[n]).None?
    requires Py.Find(defaults, qs[n].fields["name"]).None?
    ensures ScanQuestions(qs, n + 1) == Ok(defaults + [(qs[n].fields["name"], qs[n].fields["default"])])
  {
  }

  /** Question `i` of the placeholder is well formed, with the given name and default. */
  lemma DefaultQuestionShape(i: nat, name: string, default: Value)
    requires i < 3
    requires i == 0 ==> name == "num_racks" && default == Int(2)
    requires i == 1 ==> name == "power_cables" && default == Bool(false)
    requires i == 2 ==> name == "support_years" && default == Int(3)
    ensures QuestionError(i, DefaultQuestions()[i]).None?
    ensures DefaultQuestions()[i].fields["name"] == Str(name)
    ensures DefaultQuestions()[i].fields["default"] == default
  {
  }

  lemma DefaultQuestionsScan()
    ensures ScanQuestions(DefaultQuestions(), 3).Ok?
    ensures ScanQuestions(DefaultQuestions(), 3).value == DefaultAnswers()
  {
    NamesDiffer();
    DefaultQuestionShape(0, "num_racks", Int(2));
    DefaultQuestionShape(1, "power_cables", Bool(false));
    DefaultQuestionShape(2, "support_years", Int(3));
    ScanThree(DefaultQuestions(), Str("num_racks"), Str("power_cables"), Str("support_years"),
              Int(2), Bool(false), Int(3));
  }

  /** Three well-formed questions with pairwise different names fill the map in order. */
  lemma ScanThree(qs: seq<Value>, a: Value, b: Value, c: Value, va: Value, vb: Value, vc: Value)
    requires |qs| == 3
    requires QuestionError(0, qs[0]).None? && QuestionError(1, qs[1]).None? && QuestionError(2, qs[2]).None?
    requires qs[0].fields["name"] == a && qs[1].fields["name"] == b && qs[2].fields["name"] == c
    requires qs[0].fields["default"] == va && qs[1].fields["default"] == vb && qs[2].fields["default"] == vc
    requires !Py.Eq(a, b) && !Py.Eq(a, c) && !Py.Eq(b, c)
    ensures ScanQuestions(qs, 3) == Ok([(a, va), (b, vb), (c, vc)])
  {
    var d1: Bom.Answers := [(a, va)];
    var d2: Bom.Answers := d1 + [(b, vb)];
    ScanAppends(qs, 0, []);
    assert [] + [(a, va)] == d1;
    assert Py.Find(d1, b).None?;
    ScanAppends(qs, 1, d1);
    assert d2[0] == (a, va) && d2[1] == (b, vb);
    assert Py.Find(d2, c).None?;
    ScanAppends(qs, 2, d2);
    assert d2 + [(c, vc)] == [(a, va), (b, vb), (c, vc)];
  }

  lemma NamesDiffer()
    ensures !Py.Eq(Str("num_racks"), Str("power_cables")) && !Py.Eq(Str("num_racks"), Str("support_years"))
    ensures !Py.Eq(Str("power_cables"), Str("support_years")) && !Py.Eq(Str("power_cables"), Str("num_racks"))
    ensures !Py.Eq(Str("support_years"), Str("num_racks")) && !Py.Eq(Str("support_years"), Str("power_cables"))
  {
    assert "num_racks"[1] != "power_cables"[1];
    assert "num_racks"[0] != "support_years"[0];
    assert "power_cables"[0] != "support_years"[0];
  }

  lemma DefaultAnswerLookups()
    ensures Py.Get(DefaultAnswers(), Str("num_racks")) == Some(Int(2))
    ensures Py.Get(DefaultAnswers(), Str("power_cables")) == Some(Bool(false))
    ensures Py.Get(DefaultAnswers(), Str("support_years")) == Some(Int(3))
  {
    var a := DefaultAnswers();
    NamesDiffer();
    assert Py.Find(a, Str("num_racks")) == Some(0);
    assert Py.Find(a[1..], Str("power_cables")) == Some(0);
    assert Py.Find(a, Str("power_cables")) == Some(1);
    assert Py.Find(a[2..], Str("support_years")) == Some(0);
    assert Py.Find(a[1..], Str("support_years")) == Some(1);
    assert Py.Find(a, Str("support_years")) == Some(2);
  }

  lemma DefaultRacksAccepted()
    ensures Bom.CheckQuestion(DefaultQuestions()[0], DefaultAnswers()) == None
  {
    var q := DefaultQuestions()[0];
    DefaultAnswerLookups();
    assert q.fields["name"] == Str("num_racks");
    assert q.fields["type"] == Str("integer");
    assert q.fields["min"] == Int(0);
    assert q.fields["max"] == Int(2);
    Bom.IntegerWithinBounds(q, DefaultAnswers(), 2, 0, 2);
  }

  lemma DefaultCablesAccepted()
    ensures Bom.CheckQuestion(DefaultQuestions()[1], DefaultAnswers()) == None
  {
    var q := DefaultQuestions()[1];
    DefaultAnswerLookups();
    assert q.fields["name"] == Str("power_cables");
    assert q.fields["type"] == Str("boolean");
    Bom.BooleanAnswered(q, DefaultAnswers(), false);
  }

  lemma DefaultSupportAccepted()
    ensures Bom.CheckQuestion(DefaultQuestions()[2], DefaultAnswers()) == None
  {
    var q := DefaultQuestions()[2];
    DefaultAnswerLookups();
    assert q.fields["name"] == Str("support_years");
    assert q.fields["type"] == Str("enum");
    var choices := [Int(1), Int(3), Int(5)];
    assert q.fields["choices"] == List(choices);
    Bom.ChoiceAnswered(q, DefaultAnswers(), Int(3), choices, 1);
  }

  lemma DefaultAnswersAccepted()
    ensures Bom.FirstQuestionError(DefaultQuestions(), DefaultAnswers()) == None
  {
    DefaultRacksAccepted();
    DefaultCablesAccepted();
    DefaultSupportAccepted();
    Bom.AnswersAcceptedIff(DefaultQuestions(), DefaultAnswers());
  }

  lemma DefaultRulesPass()
    ensures FirstRuleError(DefaultDocument().fields["products"].items, 4) == None
  {
    var rules := DefaultDocument().fields["products"].items;
    forall k | 0 <= k < 4 ensures RuleError(k, rules[k]).None? {
      var add := FieldOrNull(rules[k], "add");
      assert "product" in add.fields && "quantity" in add.fields;
    }
    FirstRuleErrorIff(rules, 4);
  }

  /** The placeholder pattern every new pattern starts with always passes `clean`, whatever
      the catalog and the expression evaluator: each of its rules is for `"example"`, which
      is skipped before any condition is evaluated, and its defaults answer its questions. */
  lemma DefaultPatternClean(text: string, load: Bom.YamlLoader, eval: Bom.Evaluator, catalog: Bom.Catalog)
    requires load(text) == Some(DefaultDocument())
    ensures CleanResult(text, load, eval, catalog).Ok?
    ensures CleanResult(text, load, eval, catalog).value == List(DefaultQuestions())
  {
    var doc := DefaultDocument();
    var rules := doc.fields["products"].items;
    var questions := Field(doc, "questions").GetOr(List([]));
    assert questions == List(DefaultQuestions());
    DefaultRulesPass();
    DefaultQuestionsScan();
    assert ScanQuestions(questions.items, |questions.items|).value == DefaultAnswers();
    DefaultGenerates(text, load, eval, catalog);
    CleanFromGeneration(text, load, eval, catalog);
  }

  /** The parts of the placeholder document `generate` reads. */
  lemma DefaultDocumentShape()
    ensures DefaultDocument().Dict? && "products" in DefaultDocument().fields
    ensures Field(DefaultDocument(), "questions").GetOr(List([])) == List(DefaultQuestions())
    ensures DefaultDocument().fields["products"].List?
    ensures |DefaultDocument().fields["products"].items| == 4
  {
  }

  /** A rule that adds the placeholder product, without a raw entry. */
  ghost predicate ExampleRule(rule: Value) {
    && rule.Dict? && "add" in rule.fields
    && var add := rule.fields["add"];
    && add.Dict? && "raw" !in add.fields && "product" in add.fields && add.fields["product"] == Str("example")
  }

  /** Every rule of the placeholder adds the placeholder product. */
  lemma DefaultRulesAreExamples(k: nat)
    requires k < 4
    ensures ExampleRule(DefaultDocument().fields["products"].items[k])
  {
  }

  /** Rules for the placeholder product give no parts under any evaluator: they are skipped
      before their condition or quantity is evaluated. */
  lemma {:induction false} ExampleRulesCollectNothing(mode: Bom.KeyMode, rules: seq<Value>, n: nat,
                                                      answers: Bom.Answers, eval: Bom.Evaluator)
    requires n <= |rules| && forall k :: 0 <= k < n ==> ExampleRule(rules[k])
    ensures Bom.Collect(mode, rules, n, answers, eval) == Ok([])
    decreases n
  {
    if n > 0 {
      ExampleRulesCollectNothing(mode, rules, n - 1, answers, eval);
      var add := rules[n - 1].fields["add"];
      assert FieldOrNull(add, "raw") == Null && FieldOrNull(add, "product") == Str("example");
    }
  }

  /** The dry run of the default document with its own defaults yields an empty BOM. */
  lemma DefaultGenerates(text: string, load: Bom.YamlLoader, eval: Bom.Evaluator, catalog: Bom.Catalog)
    requires load(text) == Some(DefaultDocument())
    ensures Bom.Generate(Bom.SharedKeys, text, DefaultAnswers(), false, load, eval, catalog) == Ok([])
  {
    DefaultDocumentShape();
    var rules := DefaultDocument().fields["products"].items;
    forall k | 0 <= k < 4 ensures ExampleRule(rules[k]) {
      DefaultRulesAreExamples(k);
    }
    DefaultAnswersAccepted();
    ExampleRulesCollectNothing(Bom.SharedKeys, rules, 4, DefaultAnswers(), eval);
    BomProperties.GenerateAccepted(Bom.SharedKeys, text, DefaultAnswers(), false, load, eval, catalog, []);
  }
}
