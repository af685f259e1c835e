/** The pattern editor's inline check (`validateYamlInline` in YamlEditor.tsx): it parses
    the document, flags boolean questions that carry choices, enum questions whose default
    is not among their choices, and rule quantities that do not parse or use a name no
    question declares. Each diagnostic is anchored to the first line that mentions the
    question or the rule. Every diagnostic the editor reports has severity `error`, so the
    severity is not carried. The YAML parser and the expression parser are parameters. */
module YamlEditor {
  import opened Wrappers
  import opened Strings
  import opened YamlValue
  import opened JsValues

  datatype Diagnostic = Diagnostic(from: int, to: int, message: string)

  /** What the check throws instead of returning diagnostics. */
  datatype TypeError =
    | ForEachOfNonArray     // `questions` or `rules` is neither an array nor missing
    | DestructureOfNullish  // a question or a rule is `null`

  /** How `v in questionVars` is decided: as written, `questionVars` is a plain object, so
      names it inherits from `Object.prototype` count as declared; `OwnKeys` counts only
      the question names. */
  datatype Lookup = AsWritten | OwnKeys

  /** `yaml.load`: the parsed document, or the message of the exception it throws. */
  type Loader = string -> Result<Value, string>

  /** `parser.parse(q).variables()`: the names a quantity expression uses, or the message
      of the exception `parse` throws. */
  type ExprParser = string -> Result<seq<string>, string>

  // ---------------------------------------------------------------------------
  // Lines and offsets
  // ---------------------------------------------------------------------------

  function Lines(text: string): seq<string> {
    Split(text, '\n')
  }

  /** The characters that lines take up, each followed by its line break. */
  function Span(ls: seq<string>): nat
    decreases |ls|
  {
    if ls == [] then 0 else |ls[0]| + 1 + Span(ls[1..])
  }

  /** `getOffset(line)`: where line `line` starts; 0 for a negative index. */
  function Offset(lines: seq<string>, line: int): nat {
    if line < 0 then 0 else if line <= |lines| then Span(lines[..line]) else Span(lines)
  }

  /** `lines.findIndex(l => l.includes(needle))`. */
  function FindLine(lines: seq<string>, needle: string): (r: int)
    ensures -1 <= r < |lines|
    ensures r >= 0 ==> Contains(lines[r], needle)
    ensures forall k :: 0 <= k < |lines| && (r == -1 || k < r) ==> !Contains(lines[k], needle)
    decreases |lines|
  {
    if lines == [] then -1
    else if Contains(lines[0], needle) then 0
    else
      var r := FindLine(lines[1..], needle);
      assert forall k :: 1 <= k < |lines| ==> lines[k] == lines[1..][k - 1];
      if r == -1 then -1 else r + 1
  }

  /** The `from` and `to` of a diagnostic about `needle`: the whole first line that
      contains it, or the first character when no line does. */
  function Anchor(lines: seq<string>, needle: string): (nat, nat) {
    var i := FindLine(lines, needle);
    var from := Offset(lines, i);
    (from, if i >= 0 then from + |lines[i]| else from + 1)
  }

  /** Line `i` sits in the joined text at its offset, after a line break unless it is the
      first. */
  lemma {:induction false} LineInJoin(ls: seq<string>, i: nat)
    requires i < |ls|
    ensures Offset(ls, i) + |ls[i]| <= |Join(ls, '\n')|
    ensures Join(ls, '\n')[Offset(ls, i)..Offset(ls, i) + |ls[i]|] == ls[i]
    ensures i > 0 ==> Join(ls, '\n')[Offset(ls, i) - 1] == '\n'
    decreases i
  {
    if i == 0 {
      assert ls[..0] == [];
      if |ls| > 1 {
        assert Join(ls, '\n') == ls[0] + ['\n'] + Join(ls[1..], '\n');
      }
    } else {
      var rest := ls[1..];
      var p := |ls[0]| + 1;
      assert ls[..i][1..] == rest[..i - 1];
      assert ls[..i][0] == ls[0];
      assert Offset(ls, i) == p + Offset(rest, i - 1);
      LineInJoin(rest, i - 1);
      var head := ls[0] + ['\n'];
      assert Join(ls, '\n') == head + Join(rest, '\n');
      var o := Offset(rest, i - 1);
      assert (head + Join(rest, '\n'))[p + o..p + o + |ls[i]|] == Join(rest, '\n')[o..o + |rest[i - 1]|];
      if i == 1 {
        assert Join(ls, '\n')[p - 1] == head[p - 1];
      } else {
        assert Join(ls, '\n')[p + o - 1] == Join(rest, '\n')[o - 1];
      }
    }
  }

  /** The anchor of a needle is the first line of the text that contains it, taken whole
      and starting after a line break or at the start of the text; with no such line it
      is the first character. */
  lemma AnchorInText(text: string, needle: string)
    ensures var (from, to) := Anchor(Lines(text), needle);
      from <= to
      && (FindLine(Lines(text), needle) >= 0 ==>
            to <= |text| && Contains(text[from..to], needle) && '\n' !in text[from..to]
            && (from == 0 || text[from - 1] == '\n'))
      && (FindLine(Lines(text), needle) == -1 ==>
            (from, to) == (0, 1)
            && forall k :: 0 <= k < |Lines(text)| ==> !Contains(Lines(text)[k], needle))
  {
    var lines := Lines(text);
    var i := FindLine(lines, needle);
    JoinSplit(text, '\n');
    if i >= 0 {
      LineInJoin(lines, i);
    }
  }

  // ---------------------------------------------------------------------------
  // Questions
  // ---------------------------------------------------------------------------

  function BooleanMessage(name: string): string {
    "Boolean question '" + name + "' should not have choices."
  }

  function EnumMessage(name: string): string {
    "Enum question '" + name + "' must have valid choices and a default in that list."
  }

  /** The key `questionVars[name] = def` writes: the name as a string. */
  function VarName(q: Value): string {
    ToStr(Field(q, "name"))
  }

  /** A boolean question has no choices worth the name. */
  predicate BooleanFine(q: Value) {
    Field(q, "type") == Some(Str("boolean")) ==> !Truthy(Field(q, "choices"))
  }

  /** An enum question lists its choices, and its default is one of them. */
  predicate EnumFine(q: Value) {
    var choices := Field(q, "choices");
    Field(q, "type") == Some(Str("enum")) ==>
      choices.Some? && choices.value.List? && Includes(choices.value.items, Field(q, "default"))
  }

  /** The diagnostics about one question: the boolean check, then the enum check. */
  function QuestionDiagnostics(lines: seq<string>, q: Value): seq<Diagnostic> {
    var (from, to) := Anchor(lines, "name: " + VarName(q));
    (if BooleanFine(q) then [] else [Diagnostic(from, to, BooleanMessage(VarName(q)))])
    + (if EnumFine(q) then [] else [Diagnostic(from, to, EnumMessage(VarName(q)))])
  }

  /** A question gets at most one diagnostic, none exactly when it is well formed, and
      that diagnostic is anchored at its `name:` line. */
  lemma QuestionDiagnosticsIff(lines: seq<string>, q: Value)
    ensures |QuestionDiagnostics(lines, q)| <= 1
    ensures QuestionDiagnostics(lines, q) == [] <==> BooleanFine(q) && EnumFine(q)
    ensures forall d :: d in QuestionDiagnostics(lines, q) ==>
      (d.from, d.to) == Anchor(lines, "name: " + VarName(q))
  {
    if !BooleanFine(q) {
      assert Field(q, "type") == Some(Str("boolean"));
      assert EnumFine(q);
    }
  }

  /** The range every anchored diagnostic lies in: inside the text of `lines`, or the
      first character. */
  predicate Bounded(d: Diagnostic, lines: seq<string>) {
    0 <= d.from <= d.to && (d.to + 1 <= Span(lines) || (d.from, d.to) == (0, 1))
  }

  lemma AnchorBounded(lines: seq<string>, needle: string, message: string)
    ensures Bounded(Diagnostic(Anchor(lines, needle).0, Anchor(lines, needle).1, message), lines)
  {
    var i := FindLine(lines, needle);
    if i >= 0 {
      SpanAfterLine(lines, i);
    }
  }

  /** Line `i` ends, with its break, within the span of the lines. */
  lemma {:induction false} SpanAfterLine(ls: seq<string>, i: nat)
    requires i < |ls|
    ensures Offset(ls, i) + |ls[i]| + 1 <= Span(ls)
    decreases i
  {
    if i == 0 {
      assert ls[..0] == [];
    } else {
      assert ls[..i][1..] == ls[1..][..i - 1];
      assert ls[..i][0] == ls[0];
      SpanAfterLine(ls[1..], i - 1);
    }
  }

  /** `questions.forEach(...)`: the diagnostics of the questions in order; destructuring a
      `null` question throws. */
  function CheckQuestions(lines: seq<string>, qs: seq<Value>): (r: Result<seq<Diagnostic>, TypeError>)
    ensures r.Err? ==> r.error == DestructureOfNullish
    decreases |qs|
  {
    if qs == [] then Ok([])
    else
      var n := |qs| - 1;
      var before := CheckQuestions(lines, qs[..n]);
      if before.Err? then before
      else if qs[n].Null? then Err(DestructureOfNullish)
      else Ok(before.value + QuestionDiagnostics(lines, qs[n]))
  }

  /** The questions' check throws exactly when one of them is `null`. */
  lemma {:induction false} QuestionsThrowIff(lines: seq<string>, qs: seq<Value>)
    ensures CheckQuestions(lines, qs).Err? <==> exists k :: 0 <= k < |qs| && qs[k].Null?
    decreases |qs|
  {
    if qs != [] {
      var n := |qs| - 1;
      var init := qs[..n];
      QuestionsThrowIff(lines, init);
      if CheckQuestions(lines, init).Err? {
        var k :| 0 <= k < n && init[k].Null?;
        assert qs[k].Null?;
      } else if !qs[n].Null? {
        forall k | 0 <= k < |qs|
          ensures !qs[k].Null?
        {
          if k < n {
            assert init[k] == qs[k];
          }
        }
      }
    }
  }

  /** Each question gets at most one diagnostic, and every one lies within the text or on
      its first character. */
  lemma {:induction false} QuestionsBounded(lines: seq<string>, qs: seq<Value>)
    requires CheckQuestions(lines, qs).Ok?
    ensures |CheckQuestions(lines, qs).value| <= |qs|
    ensures forall d :: d in CheckQuestions(lines, qs).value ==> Bounded(d, lines)
    decreases |qs|
  {
    if qs != [] {
      var n := |qs| - 1;
      QuestionsBounded(lines, qs[..n]);
      QuestionDiagnosticsIff(lines, qs[n]);
      AnchorBounded(lines, "name: " + VarName(qs[n]), BooleanMessage(VarName(qs[n])));
      AnchorBounded(lines, "name: " + VarName(qs[n]), EnumMessage(VarName(qs[n])));
    }
  }

  /** One more question that is not `null` appends its diagnostics and its name. */
  lemma CheckQuestionsStep(lines: seq<string>, qs: seq<Value>, i: nat)
    requires i < |qs| && CheckQuestions(lines, qs[..i]).Ok? && !qs[i].Null?
    ensures CheckQuestions(lines, qs[..i + 1]) == Ok(CheckQuestions(lines, qs[..i]).value + QuestionDiagnostics(lines, qs[i]))
    ensures Names(qs[..i + 1]) == Names(qs[..i]) + {VarName(qs[i])}
  {
    assert qs[..i + 1][..i] == qs[..i];
  }

  /** The keys of `questionVars` once every question has been seen. */
  function Names(qs: seq<Value>): (r: set<string>)
    ensures forall k :: 0 <= k < |qs| ==> VarName(qs[k]) in r
    ensures forall v :: v in r ==> exists k :: 0 <= k < |qs| && VarName(qs[k]) == v
    decreases |qs|
  {
    if qs == [] then {}
    else
      var n := |qs| - 1;
      assert forall k :: 0 <= k < n ==> qs[..n][k] == qs[k];
      Names(qs[..n]) + {VarName(qs[n])}
  }

  // ---------------------------------------------------------------------------
  // Rules
  // ---------------------------------------------------------------------------

  function UndefinedMessage(v: string): string {
    "Quantity uses undefined variable '" + v + "'."
  }

  function InvalidQuantityMessage(error: string): string {
    "Invalid quantity: " + error
  }

  /** The variable an undefined-variable message names, if it is one. */
  function ReportedName(message: string): Option<string> {
    var prefix := "Quantity uses undefined variable '";
    if prefix <= message && |message| >= |prefix| + 2 && message[|message| - 2..] == "'."
    then Some(message[|prefix|..|message| - 2])
    else None
  }

  /** An undefined-variable message names its variable. */
  lemma ReportedNameOf(v: string)
    ensures ReportedName(UndefinedMessage(v)) == Some(v)
  {
    var prefix := "Quantity uses undefined variable '";
    var m := UndefinedMessage(v);
    assert m == prefix + v + "'.";
    assert m[|prefix|..|m| - 2] == v;
  }

  /** Whether `v in questionVars` holds. */
  predicate Declared(lookup: Lookup, names: set<string>, v: string) {
    v in names || (lookup == AsWritten && v in InheritedNames)
  }

  /** `expr.variables().forEach(...)`: one diagnostic per use of an undeclared name. */
  function Undeclared(lookup: Lookup, names: set<string>, vs: seq<string>, from: int, to: int): seq<Diagnostic>
    decreases |vs|
  {
    if vs == [] then []
    else
      var n := |vs| - 1;
      Undeclared(lookup, names, vs[..n], from, to)
      + (if Declared(lookup, names, vs[n]) then [] else [Diagnostic(from, to, UndefinedMessage(vs[n]))])
  }

  /** At most one report per use, each at the given range and naming an undeclared name
      the expression uses. */
  lemma {:induction false} UndeclaredSound(lookup: Lookup, names: set<string>, vs: seq<string>, from: int, to: int)
    ensures |Undeclared(lookup, names, vs, from, to)| <= |vs|
    ensures forall d :: d in Undeclared(lookup, names, vs, from, to) ==>
      d.from == from && d.to == to && ReportedName(d.message).Some?
      && ReportedName(d.message).value in vs && !Declared(lookup, names, ReportedName(d.message).value)
    decreases |vs|
  {
    if vs != [] {
      var n := |vs| - 1;
      UndeclaredSound(lookup, names, vs[..n], from, to);
      ReportedNameOf(vs[n]);
      assert forall k :: 0 <= k < n ==> vs[..n][k] == vs[k];
    }
  }

  /** Every use of an undeclared name is reported. */
  lemma {:induction false} UndeclaredComplete(lookup: Lookup, names: set<string>, vs: seq<string>, from: int, to: int, k: nat)
    requires k < |vs| && !Declared(lookup, names, vs[k])
    ensures Diagnostic(from, to, UndefinedMessage(vs[k])) in Undeclared(lookup, names, vs, from, to)
    decreases |vs|
  {
    var n := |vs| - 1;
    if k < n {
      assert vs[..n][k] == vs[k];
      UndeclaredComplete(lookup, names, vs[..n], from, to, k);
    }
  }

  /** `add?.quantity` of a rule. */
  function Quantity(rule: Value): Option<Value> {
    Get(Field(rule, "add"), "quantity")
  }

  /** What a rule's diagnostics are anchored to: its product when that is truthy, its
      condition otherwise. */
  function RuleNeedle(rule: Value): string {
    var product := Get(Field(rule, "add"), "product");
    if Truthy(product) then ToStr(product) else ToStr(Field(rule, "condition"))
  }

  /** The diagnostics about one rule: only a string quantity is checked. */
  function RuleDiagnostics(lookup: Lookup, lines: seq<string>, names: set<string>, parse: ExprParser, rule: Value): seq<Diagnostic> {
    var (from, to) := Anchor(lines, RuleNeedle(rule));
    var quantity := Quantity(rule);
    if quantity.Some? && quantity.value.Str? then
      match parse(quantity.value.s)
      case Err(error) => [Diagnostic(from, to, InvalidQuantityMessage(error))]
      case Ok(vs) => Undeclared(lookup, names, vs, from, to)
    else []
  }

  /** A rule's diagnostics lie within the text or on its first character. */
  lemma RuleBounded(lookup: Lookup, lines: seq<string>, names: set<string>, parse: ExprParser, rule: Value)
    ensures forall d :: d in RuleDiagnostics(lookup, lines, names, parse, rule) ==> Bounded(d, lines)
  {
    AnchorBounded(lines, RuleNeedle(rule), "");
    var (from, to) := Anchor(lines, RuleNeedle(rule));
    match Quantity(rule) {
      case Some(Str(t)) =>
        match parse(t) {
          case Err(_) =>
          case Ok(vs) => UndeclaredSound(lookup, names, vs, from, to);
        }
      case _ =>
    }
  }

  /** `rules.forEach(...)`: the diagnostics of the rules in order; destructuring a `null`
      rule throws. */
  function CheckRules(lookup: Lookup, lines: seq<string>, names: set<string>, parse: ExprParser, rs: seq<Value>): (r: Result<seq<Diagnostic>, TypeError>)
    ensures r.Err? ==> r.error == DestructureOfNullish
    decreases |rs|
  {
    if rs == [] then Ok([])
    else
      var n := |rs| - 1;
      var before := CheckRules(lookup, lines, names, parse, rs[..n]);
      if before.Err? then before
      else if rs[n].Null? then Err(DestructureOfNullish)
      else Ok(before.value + RuleDiagnostics(lookup, lines, names, parse, rs[n]))
  }

  /** The rules' check throws exactly when one of them is `null`. */
  lemma {:induction false} RulesThrowIff(lookup: Lookup, lines: seq<string>, names: set<string>, parse: ExprParser, rs: seq<Value>)
    ensures CheckRules(lookup, lines, names, parse, rs).Err? <==> exists k :: 0 <= k < |rs| && rs[k].Null?
    decreases |rs|
  {
    if rs != [] {
      var n := |rs| - 1;
      var init := rs[..n];
      RulesThrowIff(lookup, lines, names, parse, init);
      if CheckRules(lookup, lines, names, parse, init).Err? {
        var k :| 0 <= k < n && init[k].Null?;
        assert rs[k].Null?;
      } else if !rs[n].Null? {
        forall k | 0 <= k < |rs|
          ensures !rs[k].Null?
        {
          if k < n {
            assert init[k] == rs[k];
          }
        }
      }
    }
  }

  /** Every diagnostic of the rules lies within the text or on its first character. */
  lemma {:induction false} RulesBounded(lookup: Lookup, lines: seq<string>, names: set<string>, parse: ExprParser, rs: seq<Value>)
    requires CheckRules(lookup, lines, names, parse, rs).Ok?
    ensures forall d :: d in CheckRules(lookup, lines, names, parse, rs).value ==> Bounded(d, lines)
    decreases |rs|
  {
    if rs != [] {
      var n := |rs| - 1;
      RulesBounded(lookup, lines, names, parse, rs[..n]);
      RuleBounded(lookup, lines, names, parse, rs[n]);
    }
  }

  /** A rule reports a name as undefined only when the name is undeclared. */
  lemma RuleReportsOnlyUndeclared(lookup: Lookup, lines: seq<string>, names: set<string>, parse: ExprParser, rule: Value, d: Diagnostic)
    requires d in RuleDiagnostics(lookup, lines, names, parse, rule) && ReportedName(d.message).Some?
    ensures !Declared(lookup, names, ReportedName(d.message).value)
  {
    match Quantity(rule) {
      case Some(Str(t)) =>
        match parse(t) {
          case Err(e) => NotReported(InvalidQuantityMessage(e));
          case Ok(vs) =>
            var (from, to) := Anchor(lines, RuleNeedle(rule));
            UndeclaredSound(lookup, names, vs, from, to);
        }
      case _ =>
    }
  }

  /** A message that does not start as an undefined-variable report names no variable. */
  lemma NotReported(m: string)
    ensures m == [] || m[0] != 'Q' ==> ReportedName(m).None?
  {
  }

  /** The rules report a name as undefined only when it is undeclared. */
  lemma {:induction false} RulesReportOnlyUndeclared(lookup: Lookup, lines: seq<string>, names: set<string>, parse: ExprParser, rs: seq<Value>, d: Diagnostic)
    requires CheckRules(lookup, lines, names, parse, rs).Ok?
    requires d in CheckRules(lookup, lines, names, parse, rs).value && ReportedName(d.message).Some?
    ensures !Declared(lookup, names, ReportedName(d.message).value)
    decreases |rs|
  {
    var n := |rs| - 1;
    var before := CheckRules(lookup, lines, names, parse, rs[..n]).value;
    if d in before {
      RulesReportOnlyUndeclared(lookup, lines, names, parse, rs[..n], d);
    } else {
      RuleReportsOnlyUndeclared(lookup, lines, names, parse, rs[n], d);
    }
  }

  /** One more rule that is not `null` appends its diagnostics. */
  lemma CheckRulesStep(lookup: Lookup, lines: seq<string>, names: set<string>, parse: ExprParser, rs: seq<Value>, i: nat)
    requires i < |rs| && CheckRules(lookup, lines, names, parse, rs[..i]).Ok? && !rs[i].Null?
    ensures CheckRules(lookup, lines, names, parse, rs[..i + 1])
      == Ok(CheckRules(lookup, lines, names, parse, rs[..i]).value + RuleDiagnostics(lookup, lines, names, parse, rs[i]))
  {
    assert rs[..i + 1][..i] == rs[..i];
  }

  /** The diagnostic that reports `v` as undefined in a rule's quantity. */
  function UndefinedAt(lines: seq<string>, rule: Value, v: string): Diagnostic {
    var (from, to) := Anchor(lines, RuleNeedle(rule));
    Diagnostic(from, to, UndefinedMessage(v))
  }

  /** The rule's quantity is a string that parses, and it uses `v`, which is undeclared. */
  predicate UsesUndeclared(lookup: Lookup, names: set<string>, parse: ExprParser, rule: Value, v: string) {
    var q := Quantity(rule);
    q.Some? && q.value.Str? && parse(q.value.s).Ok? && v in parse(q.value.s).value
    && !Declared(lookup, names, v)
  }

  /** Every undeclared name a rule's string quantity uses is reported. */
  lemma {:induction false} RulesReportUndeclared(lookup: Lookup, lines: seq<string>, names: set<string>, parse: ExprParser, rs: seq<Value>, k: nat, v: string)
    requires CheckRules(lookup, lines, names, parse, rs).Ok?
    requires k < |rs| && UsesUndeclared(lookup, names, parse, rs[k], v)
    ensures UndefinedAt(lines, rs[k], v) in CheckRules(lookup, lines, names, parse, rs).value
    decreases |rs|
  {
    var n := |rs| - 1;
    var init := rs[..n];
    CheckRulesLast(lookup, lines, names, parse, rs);
    if k < n {
      assert init[k] == rs[k];
      RulesReportUndeclared(lookup, lines, names, parse, init, k, v);
    } else {
      RuleReportsUndeclared(lookup, lines, names, parse, rs[n], v);
    }
  }

  /** The diagnostics of the rules are those of all but the last, then the last's. */
  lemma CheckRulesLast(lookup: Lookup, lines: seq<string>, names: set<string>, parse: ExprParser, rs: seq<Value>)
    requires rs != [] && CheckRules(lookup, lines, names, parse, rs).Ok?
    ensures CheckRules(lookup, lines, names, parse, rs[..|rs| - 1]).Ok?
    ensures CheckRules(lookup, lines, names, parse, rs).value
      == CheckRules(lookup, lines, names, parse, rs[..|rs| - 1]).value
         + RuleDiagnostics(lookup, lines, names, parse, rs[|rs| - 1])
  {
  }

  /** A rule reports every undeclared name its string quantity uses. */
  lemma RuleReportsUndeclared(lookup: Lookup, lines: seq<string>, names: set<string>, parse: ExprParser, rule: Value, v: string)
    requires UsesUndeclared(lookup, names, parse, rule, v)
    ensures UndefinedAt(lines, rule, v) in RuleDiagnostics(lookup, lines, names, parse, rule)
  {
    var (from, to) := Anchor(lines, RuleNeedle(rule));
    var vs := parse(Quantity(rule).value.s).value;
    var j :| 0 <= j < |vs| && vs[j] == v;
    UndeclaredComplete(lookup, names, vs, from, to, j);
  }

  // ---------------------------------------------------------------------------
  // The whole check
  // ---------------------------------------------------------------------------

  /** `parsed?.questions ?? []`. */
  function Questions(parsed: Value): Value {
    Coalesce(Field(parsed, "questions"), List([]))
  }

  /** `parsed?.rules ?? []`. */
  function Rules(parsed: Value): Value {
    Coalesce(Field(parsed, "rules"), List([]))
  }

  /** `validateYamlInline(text)`: the diagnostics of the questions, then those of the rules;
      a document that does not parse gets one diagnostic over the whole text. Every
      diagnostic lies within the text or on its first character. */
  function Validate(lookup: Lookup, text: string, load: Loader, parse: ExprParser): (r: Result<seq<Diagnostic>, TypeError>)
    ensures load(text).Err? ==> r == Ok([Diagnostic(0, |text|, "YAML Syntax Error: " + load(text).error)])
    ensures r.Ok? ==> forall d :: d in r.value ==>
      0 <= d.from <= d.to && (d.to <= |text| || (d.from, d.to) == (0, 1))
  {
    match load(text)
    case Err(error) => Ok([Diagnostic(0, |text|, "YAML Syntax Error: " + error)])
    case Ok(parsed) =>
      var questions := Questions(parsed);
      var rules := Rules(parsed);
      var lines := Lines(text);
      JoinSplit(text, '\n');
      SpanOfJoin(lines);
      if !questions.List? then Err(ForEachOfNonArray)
      else match CheckQuestions(lines, questions.items)
        case Err(e) => Err(e)
        case Ok(qd) =>
          QuestionsBounded(lines, questions.items);
          if !rules.List? then Err(ForEachOfNonArray)
          else match CheckRules(lookup, lines, Names(questions.items), parse, rules.items)
            case Err(e) => Err(e)
            case Ok(rd) =>
              RulesBounded(lookup, lines, Names(questions.items), parse, rules.items);
              Ok(qd + rd)
  }

  /** The joined lines are one character shorter than their span: the last has no break. */
  lemma {:induction false} SpanOfJoin(ls: seq<string>)
    requires |ls| >= 1
    ensures |Join(ls, '\n')| + 1 == Span(ls)
    decreases |ls|
  {
    if |ls| > 1 {
      SpanOfJoin(ls[1..]);
    } else {
      assert ls[1..] == [];
    }
  }

  /** The check throws exactly when the document parses but its questions or rules are
      not a list (nor missing), or one of them is `null`. */
  lemma ValidateThrowsIff(lookup: Lookup, text: string, load: Loader, parse: ExprParser)
    ensures Validate(lookup, text, load, parse).Err? <==>
      load(text).Ok?
      && var qs := Questions(load(text).value);
         var rs := Rules(load(text).value);
         (!qs.List? || (exists k :: 0 <= k < |qs.items| && qs.items[k].Null?)
          || !rs.List? || (exists k :: 0 <= k < |rs.items| && rs.items[k].Null?))
  {
    if load(text).Ok? {
      var parsed := load(text).value;
      var lines := Lines(text);
      var qs := Questions(parsed);
      var rs := Rules(parsed);
      if qs.List? {
        QuestionsThrowIff(lines, qs.items);
        if rs.List? {
          RulesThrowIff(lookup, lines, Names(qs.items), parse, rs.items);
        }
      }
    }
  }

  /** A name some question declares is never reported as undefined, wherever the question
      stands; as written, no name of `Object.prototype` is either. */
  lemma DeclaredNeverReported(lookup: Lookup, text: string, load: Loader, parse: ExprParser, d: Diagnostic)
    requires Validate(lookup, text, load, parse).Ok? && d in Validate(lookup, text, load, parse).value
    requires ReportedName(d.message).Some?
    ensures load(text).Ok? && Questions(load(text).value).List?
    ensures !Declared(lookup, Names(Questions(load(text).value).items), ReportedName(d.message).value)
  {
    match load(text) {
      case Err(e) =>
        NotReported("YAML Syntax Error: " + e);
        assert false;
      case Ok(_) =>
    }
    var parsed := load(text).value;
    var lines := Lines(text);
    var qs := Questions(parsed).items;
    var qd := CheckQuestions(lines, qs).value;
    var rd := CheckRules(lookup, lines, Names(qs), parse, Rules(parsed).items).value;
    assert Validate(lookup, text, load, parse).value == qd + rd;
    if d in qd {
      QuestionMessagesNotReported(lines, qs, d);
      assert false;
    }
    RulesReportOnlyUndeclared(lookup, lines, Names(qs), parse, Rules(parsed).items, d);
  }

  /** No question diagnostic reads as an undefined-variable report. */
  lemma {:induction false} QuestionMessagesNotReported(lines: seq<string>, qs: seq<Value>, d: Diagnostic)
    requires CheckQuestions(lines, qs).Ok? && d in CheckQuestions(lines, qs).value
    ensures ReportedName(d.message).None?
    decreases |qs|
  {
    var n := |qs| - 1;
    var before := CheckQuestions(lines, qs[..n]).value;
    if d in before {
      QuestionMessagesNotReported(lines, qs[..n], d);
    } else {
      NotReported(BooleanMessage(VarName(qs[n])));
      NotReported(EnumMessage(VarName(qs[n])));
    }
  }

  /** Every undeclared name a rule's string quantity uses is reported by the check. */
  lemma UndeclaredReported(lookup: Lookup, text: string, load: Loader, parse: ExprParser, k: nat, v: string)
    requires Validate(lookup, text, load, parse).Ok? && load(text).Ok?
    requires Rules(load(text).value).List? && k < |Rules(load(text).value).items|
    requires UsesUndeclared(lookup, Names(Questions(load(text).value).items), parse, Rules(load(text).value).items[k], v)
    ensures UndefinedAt(Lines(text), Rules(load(text).value).items[k], v) in Validate(lookup, text, load, parse).value
  {
    var parsed := load(text).value;
    var lines := Lines(text);
    var qs := Questions(parsed).items;
    var names := Names(qs);
    var qd := CheckQuestions(lines, qs).value;
    var rd := CheckRules(lookup, lines, names, parse, Rules(parsed).items).value;
    assert Validate(lookup, text, load, parse).value == qd + rd;
    RulesReportUndeclared(lookup, lines, names, parse, Rules(parsed).items, k, v);
  }

  /** A document with neither questions nor rules gets no diagnostics. */
  lemma NothingToCheck(lookup: Lookup, text: string, load: Loader, parse: ExprParser)
    requires load(text).Ok?
    requires Questions(load(text).value) == List([]) && Rules(load(text).value) == List([])
    ensures Validate(lookup, text, load, parse) == Ok([])
  {
    var lines := Lines(text);
    var parsed := load(text).value;
    assert CheckQuestions(lines, Questions(parsed).items) == Ok([]);
    assert CheckRules(lookup, lines, Names(Questions(parsed).items), parse, Rules(parsed).items) == Ok([]);
    var none: seq<Diagnostic> := [];
    assert none + none == none;
    assert Validate(lookup, text, load, parse) == Ok(none + none);
  }

  // ---------------------------------------------------------------------------
  // The inherited-name finding
  // ---------------------------------------------------------------------------

  /** A document with one rule and no questions gets that rule's diagnostics. */
  lemma OneRule(lookup: Lookup, text: string, load: Loader, parse: ExprParser, rule: Value)
    requires load(text) == Ok(Dict(map["rules" := List([rule])])) && !rule.Null?
    ensures Validate(lookup, text, load, parse) == Ok(RuleDiagnostics(lookup, Lines(text), {}, parse, rule))
  {
    var parsed := load(text).value;
    var lines := Lines(text);
    assert Questions(parsed) == List([]);
    assert Rules(parsed) == List([rule]);
    assert CheckQuestions(lines, []) == Ok([]);
    assert Names([]) == {};
    assert [rule][..0] == [] && [rule][..1] == [rule];
    CheckRulesStep(lookup, lines, {}, parse, [rule], 0);
    var ds := RuleDiagnostics(lookup, lines, {}, parse, rule);
    assert [] + ([] + ds) == ds;
  }

  /** A rule whose quantity is the bare name `v` reports `v` exactly when it is
      undeclared. */
  lemma BareNameRule(lookup: Lookup, lines: seq<string>, names: set<string>, parse: ExprParser, v: string)
    requires parse(v) == Ok([v])
    ensures var rule := Dict(map["add" := Dict(map["quantity" := Str(v)])]);
      RuleDiagnostics(lookup, lines, names, parse, rule)
      == if Declared(lookup, names, v) then [] else [UndefinedAt(lines, rule, v)]
  {
    var rule := Dict(map["add" := Dict(map["quantity" := Str(v)])]);
    assert Quantity(rule) == Some(Str(v));
    var (from, to) := Anchor(lines, RuleNeedle(rule));
    assert [v][..0] == [];
    assert Undeclared(lookup, names, [v], from, to)
      == if Declared(lookup, names, v) then [] else [Diagnostic(from, to, UndefinedMessage(v))];
  }

  /** As written, a quantity that uses `constructor` (or any other name of
      `Object.prototype`) with no question of that name passes the check; looking at own
      keys reports it. */
  lemma InheritedNameSlipsThrough(text: string, load: Loader, parse: ExprParser, v: string)
    requires v in InheritedNames
    requires load(text) == Ok(Dict(map["rules" := List([Dict(map["add" := Dict(map["quantity" := Str(v)])])])]))
    requires parse(v) == Ok([v])
    ensures Validate(AsWritten, text, load, parse) == Ok([])
    ensures Validate(OwnKeys, text, load, parse).Ok?
    ensures |Validate(OwnKeys, text, load, parse).value| == 1
    ensures Validate(OwnKeys, text, load, parse).value[0].message == UndefinedMessage(v)
  {
    var rule := Dict(map["add" := Dict(map["quantity" := Str(v)])]);
    OneRule(AsWritten, text, load, parse, rule);
    OneRule(OwnKeys, text, load, parse, rule);
    BareNameRule(AsWritten, Lines(text), {}, parse, v);
    BareNameRule(OwnKeys, Lines(text), {}, parse, v);
  }

  // ---------------------------------------------------------------------------
  // The check as the editor runs it
  // ---------------------------------------------------------------------------

  /** `validateYamlInline`, step by step as written. */
  method ValidateYamlInline(text: string, load: Loader, parse: ExprParser) returns (r: Result<seq<Diagnostic>, TypeError>)
    ensures r == Validate(AsWritten, text, load, parse)
  {
    var lines := Lines(text);
    var loaded := load(text);
    if loaded.Err? {
      return Ok([Diagnostic(0, |text|, "YAML Syntax Error: " + loaded.error)]);
    }
    var parsed := loaded.value;
    var questions := Coalesce(Field(parsed, "questions"), List([]));
    var rules := Coalesce(Field(parsed, "rules"), List([]));
    if !questions.List? {
      return Err(ForEachOfNonArray);
    }
    var checked, questionVars := ForEachQuestion(lines, questions.items);
    if checked.Err? {
      return checked;
    }
    if !rules.List? {
      return Err(ForEachOfNonArray);
    }
    var ruled := ForEachRule(lines, questionVars, parse, rules.items);
    if ruled.Err? {
      return ruled;
    }
    return Ok(checked.value + ruled.value);
  }

  /** `questions.forEach(...)`: pushes each question's diagnostics and records its name
      in `questionVars`. */
  method ForEachQuestion(lines: seq<string>, qs: seq<Value>) returns (r: Result<seq<Diagnostic>, TypeError>, questionVars: map<string, Option<Value>>)
    ensures r == CheckQuestions(lines, qs)
    ensures r.Ok? ==> questionVars.Keys == Names(qs)
  {
    var diagnostics: seq<Diagnostic> := [];
    questionVars := map[];
    var i := 0;
    while i < |qs|
      invariant 0 <= i <= |qs|
      invariant CheckQuestions(lines, qs[..i]) == Ok(diagnostics)
      invariant questionVars.Keys == Names(qs[..i])
    {
      var q := qs[i];
      if q.Null? {
        QuestionsThrowIff(lines, qs);
        assert qs[i].Null?;
        return Err(DestructureOfNullish), questionVars;
      }
      var found;
      found, questionVars := CheckQuestion(lines, questionVars, q);
      CheckQuestionsStep(lines, qs, i);
      diagnostics := diagnostics + found;
      i := i + 1;
    }
    assert qs[..i] == qs;
    return Ok(diagnostics), questionVars;
  }

  /** The callback of `questions.forEach` for one question that is not `null`: records
      its default under its name and checks it. */
  method CheckQuestion(lines: seq<string>, questionVars: map<string, Option<Value>>, q: Value)
    returns (diagnostics: seq<Diagnostic>, updated: map<string, Option<Value>>)
    ensures diagnostics == QuestionDiagnostics(lines, q)
    ensures updated == questionVars[VarName(q) := Field(q, "default")]
  {
    diagnostics := [];
    var name, kind, def, choices := Field(q, "name"), Field(q, "type"), Field(q, "default"), Field(q, "choices");
    var (from, to) := Anchor(lines, "name: " + ToStr(name));
    updated := questionVars[ToStr(name) := def];
    if kind == Some(Str("boolean")) && Truthy(choices) {
      diagnostics := diagnostics + [Diagnostic(from, to, BooleanMessage(ToStr(name)))];
    }
    if kind == Some(Str("enum")) {
      if !(choices.Some? && choices.value.List?) || !Includes(choices.value.items, def) {
        diagnostics := diagnostics + [Diagnostic(from, to, EnumMessage(ToStr(name)))];
      }
    }
  }

  /** `rules.forEach(...)`: pushes each rule's diagnostics. */
  method ForEachRule(lines: seq<string>, questionVars: map<string, Option<Value>>, parse: ExprParser, rs: seq<Value>) returns (r: Result<seq<Diagnostic>, TypeError>)
    ensures r == CheckRules(AsWritten, lines, questionVars.Keys, parse, rs)
  {
    var diagnostics: seq<Diagnostic> := [];
    var j := 0;
    while j < |rs|
      invariant 0 <= j <= |rs|
      invariant CheckRules(AsWritten, lines, questionVars.Keys, parse, rs[..j]) == Ok(diagnostics)
    {
      var rule := rs[j];
      if rule.Null? {
        RulesThrowIff(AsWritten, lines, questionVars.Keys, parse, rs);
        assert rs[j].Null?;
        return Err(DestructureOfNullish);
      }
      var found := CheckRule(lines, questionVars, parse, rule);
      CheckRulesStep(AsWritten, lines, questionVars.Keys, parse, rs, j);
      diagnostics := diagnostics + found;
      j := j + 1;
    }
    assert rs[..j] == rs;
    return Ok(diagnostics);
  }

  /** The callback of `rules.forEach` for one rule that is not `null`. */
  method CheckRule(lines: seq<string>, questionVars: map<string, Option<Value>>, parse: ExprParser, rule: Value) returns (diagnostics: seq<Diagnostic>)
    ensures diagnostics == RuleDiagnostics(AsWritten, lines, questionVars.Keys, parse, rule)
  {
    diagnostics := [];
    var condition, add := Field(rule, "condition"), Field(rule, "add");
    var product, quantity := Get(add, "product"), Get(add, "quantity");
    var needle := if Truthy(product) then ToStr(product) else ToStr(condition);
    var (from, to) := Anchor(lines, needle);
    if quantity.Some? && quantity.value.Str? {
      var expr := parse(quantity.value.s);
      if expr.Err? {
        diagnostics := diagnostics + [Diagnostic(from, to, InvalidQuantityMessage(expr.error))];
      } else {
        var undefined := ForEachVariable(questionVars, expr.value, from, to);
        diagnostics := diagnostics + undefined;
      }
    }
  }

  /** `expr.variables().forEach(...)`: pushes a diagnostic for each name that is not
      `in questionVars`. */
  method ForEachVariable(questionVars: map<string, Option<Value>>, vs: seq<string>, from: int, to: int) returns (diagnostics: seq<Diagnostic>)
    ensures diagnostics == Undeclared(AsWritten, questionVars.Keys, vs, from, to)
  {
    diagnostics := [];
    var k := 0;
    while k < |vs|
      invariant 0 <= k <= |vs|
      invariant diagnostics == Undeclared(AsWritten, questionVars.Keys, vs[..k], from, to)
    {
      assert vs[..k + 1][..k] == vs[..k];
      if !(vs[k] in questionVars || vs[k] in InheritedNames) {
        diagnostics := diagnostics + [Diagnostic(from, to, UndefinedMessage(vs[k]))];
      }
      k := k + 1;
    }
    assert vs[..k] == vs;
  }
}
