/** BOM generation (`generate_bom_from_yaml`): validate the answers against the
    questions, walk the `products` rules collecting parts into an
    insertion-ordered dict, then turn every collected entry into a row. Prices,
    the spreadsheet layout and the PDF are not modelled; a row carries the
    part, its catalog metadata and its quantity, or the raw cells. */
module Bom {
  import opened Wrappers
  import opened Strings
  import opened YamlValue
  import Py = Python

  /** The answers (`inputs`), a Python dict from question name to answer. */
  type Answers = Py.Dict<Value>

  /** `yaml.safe_load`: `None` when it raises `YAMLError`. */
  type YamlLoader = string -> Option<Value>

  /** `eval(expression, {}, context)`: `None` when evaluation raises. */
  type Evaluator = (string, Answers) -> Option<Value>

  /** A catalogue product. The list price and the discount are nullable decimals; only
      whether they are present matters here, since the prices are only formatted. */
  datatype Product = Product(manufacturer: string, description: string, deviceRole: Option<string>,
                             listPrice: Option<real>, discount: Option<real>)

  /** A product whose row can be priced: `float()` of a missing price raises `TypeError`. */
  predicate Priced(p: Product) { p.listPrice.Some? && p.discount.Some? }

  /** The product table, keyed by manufacturer part number. */
  type Catalog = map<string, Product>

  /** The number of spreadsheet columns: a raw row may not have more cells. */
  const ColumnCount: nat := 9

  datatype BomError =
    | InvalidYaml
    | MissingProductsKey
    | NotIterable              // `for` over None, a number or a bool (TypeError)
    | NotAMapping              // `.get` on something that is not a dict (AttributeError)
    | UnhashableKey            // a list or dict used as a dict key (TypeError)
    | MissingInput(name: Value)
    | NotAnInteger(name: Value)
    | InvalidBound(name: Value) // `int()` of a `min` or `max` that is not a number
    | BelowMin(name: Value)
    | AboveMax(name: Value)
    | NotABoolean(name: Value)
    | MissingChoices(name: Value)
    | NotAChoice(name: Value)
    | UnknownType(name: Value)
    | MissingAdd(rule: nat)     // "Rule #n must have an 'add' dict", n counted from 1
    | QuantityError(section: nat)
    | MergeIntoRawRow(rule: nat) // `+=` on the "quantity" of a raw entry (KeyError)
    | EmptyBom
    | RawRowTooLong
    | RawRowNotAList
    | ProductNotFound(part: Value)
    | NoDiscount(part: Value)  // `float(product.discount)` of `None` (TypeError)
    | NoListPrice(part: Value) // `float(product.list_price)` of `None` (TypeError)

  // ---------------------------------------------------------------------------
  // Iteration of a parsed value by a Python `for` loop whose body calls `.get`
  // ---------------------------------------------------------------------------

  /** The elements a `for x in v:` loop visits when the body immediately calls `x.get`:
      a list gives its items; an empty dict or string gives nothing; a non-empty dict or
      string yields a `str` first, whose `.get` fails; anything else is not iterable. */
  function Elements(v: Value): (r: Result<seq<Value>, BomError>)
    ensures v.List? ==> r == Ok(v.items)
    ensures r.Ok? && !v.List? ==> r.value == []
  {
    match v
    case List(xs) => Ok(xs)
    case Dict(m) => if m == map[] then Ok([]) else Err(NotAMapping)
    case Str(s) => if s == "" then Ok([]) else Err(NotAMapping)
    case _ => Err(NotIterable)
  }

  // ---------------------------------------------------------------------------
  // Answer validation (the question loop)
  // ---------------------------------------------------------------------------

  /** The bound check of an integer question, given `n == int(answer)`. */
  function CheckBounds(q: Value, name: Value, given: Value, n: int): Option<BomError> {
    match Py.ToInt(Field(q, "min").GetOr(given))
    case None => Some(InvalidBound(name))
    case Some(lo) =>
      if n < lo then Some(BelowMin(name))
      else match Py.ToInt(Field(q, "max").GetOr(given))
        case None => Some(InvalidBound(name))
        case Some(hi) => if n > hi then Some(AboveMax(name)) else None
  }

  /** The error the question loop raises for question `q`, if any. */
  function CheckQuestion(q: Value, answers: Answers): Option<BomError> {
    if !q.Dict? then Some(NotAMapping)
    else
      var name := FieldOrNull(q, "name");
      var kind := FieldOrNull(q, "type");
      if !Py.Hashable(name) then Some(UnhashableKey)
      else
        var given := Py.Get(answers, name).GetOr(Null);
        if given.Null? then Some(MissingInput(name))
        else if kind == Str("integer") then
          // `isinstance(x, int)` holds for booleans too
          if given.Int? then CheckBounds(q, name, given, given.i)
          else if given.Bool? then CheckBounds(q, name, given, Py.BoolToInt(given.b))
          else Some(NotAnInteger(name))
        else if kind == Str("boolean") then
          if given.Bool? then None else Some(NotABoolean(name))
        else if kind == Str("enum") then
          var choices := FieldOrNull(q, "choices");
          if !Py.Truthy(choices) then Some(MissingChoices(name))
          else if !Py.In(given, choices) then Some(NotAChoice(name))
          else None
        else Some(UnknownType(name))
  }

  /** The first error of the question loop over `qs`. */
  function FirstQuestionError(qs: seq<Value>, answers: Answers): (r: Option<BomError>)
    ensures r.Some? ==>
      exists k :: 0 <= k < |qs| && CheckQuestion(qs[k], answers) == r
        && (forall j :: 0 <= j < k ==> CheckQuestion(qs[j], answers) == None)
    decreases |qs|
  {
    if qs == [] then None
    else match CheckQuestion(qs[0], answers)
      case Some(e) => Some(e)
      case None =>
        var r := FirstQuestionError(qs[1..], answers);
        assert r.Some? ==> forall k :: 1 <= k < |qs| ==> qs[1..][k - 1] == qs[k];
        r
  }

  /** The question loop: stops at the first question whose answer is rejected. */
  method ValidateAnswers(qs: seq<Value>, answers: Answers) returns (err: Option<BomError>)
    ensures err == FirstQuestionError(qs, answers)
  {
    var i := 0;
    while i < |qs|
      invariant 0 <= i <= |qs|
      invariant FirstQuestionError(qs, answers) == FirstQuestionError(qs[i..], answers)
    {
      assert qs[i..][1..] == qs[i + 1..];
      err := CheckQuestion(qs[i], answers);
      if err.Some? {
        return;
      }
      i := i + 1;
    }
    err := None;
  }

  /** The question loop accepts the answers exactly when it accepts each question's answer. */
  lemma {:induction false} AnswersAcceptedIff(qs: seq<Value>, answers: Answers)
    ensures FirstQuestionError(qs, answers) == None
        <==> forall k :: 0 <= k < |qs| ==> CheckQuestion(qs[k], answers) == None
    decreases |qs|
  {
    if qs != [] {
      AnswersAcceptedIff(qs[1..], answers);
      assert forall k :: 1 <= k < |qs| ==> qs[k] == qs[1..][k - 1];
    }
  }

  /** What an accepted answer satisfies, by question type. An integer question's
      answer is an int or a bool within the bounds that are given. */
  lemma AcceptedAnswer(q: Value, answers: Answers)
    requires CheckQuestion(q, answers) == None
    ensures q.Dict? && Py.Hashable(FieldOrNull(q, "name"))
    ensures Py.Get(answers, FieldOrNull(q, "name")).Some?
    ensures var given := Py.Get(answers, FieldOrNull(q, "name")).value;
      && !given.Null?
      && FieldOrNull(q, "type") in {Str("integer"), Str("boolean"), Str("enum")}
      && (FieldOrNull(q, "type") == Str("integer") ==>
            && (given.Int? || given.Bool?)
            && var n := Py.ToInt(given).value;
            && (Field(q, "min").Some? ==> Py.ToInt(q.fields["min"]).Some? && Py.ToInt(q.fields["min"]).value <= n)
            && (Field(q, "max").Some? ==> Py.ToInt(q.fields["max"]).Some? && n <= Py.ToInt(q.fields["max"]).value))
      && (FieldOrNull(q, "type") == Str("boolean") ==> given.Bool?)
      && (FieldOrNull(q, "type") == Str("enum") ==>
            Py.Truthy(FieldOrNull(q, "choices")) && Py.In(given, FieldOrNull(q, "choices")))
  {
  }

  /** An absent bound defaults to the answer itself, so an integer question without
      `min` and `max` accepts every int answer. */
  lemma UnboundedIntegerAccepted(q: Value, answers: Answers, n: int)
    requires q.Dict? && "min" !in q.fields && "max" !in q.fields
    requires FieldOrNull(q, "type") == Str("integer")
    requires Py.Hashable(FieldOrNull(q, "name"))
    requires Py.Get(answers, FieldOrNull(q, "name")) == Some(Int(n))
    ensures CheckQuestion(q, answers) == None
  {
  }

  /** An integer question whose answer lies within its integer bounds raises nothing. */
  lemma IntegerWithinBounds(q: Value, answers: Answers, n: int, lo: int, hi: int)
    requires q.Dict? && Py.Hashable(FieldOrNull(q, "name"))
    requires Py.Get(answers, FieldOrNull(q, "name")) == Some(Int(n))
    requires FieldOrNull(q, "type") == Str("integer")
    requires Field(q, "min") == Some(Int(lo)) && Field(q, "max") == Some(Int(hi))
    requires lo <= n <= hi
    ensures CheckQuestion(q, answers) == None
  {
    assert Py.ToInt(Int(lo)) == Some(lo) && Py.ToInt(Int(hi)) == Some(hi);
  }

  /** A boolean question answered with a boolean raises nothing. */
  lemma BooleanAnswered(q: Value, answers: Answers, b: bool)
    requires q.Dict? && Py.Hashable(FieldOrNull(q, "name"))
    requires Py.Get(answers, FieldOrNull(q, "name")) == Some(Bool(b))
    requires FieldOrNull(q, "type") == Str("boolean")
    ensures CheckQuestion(q, answers) == None
  {
  }

  /** An enum question answered with one of its choices raises nothing. */
  lemma ChoiceAnswered(q: Value, answers: Answers, v: Value, choices: seq<Value>, k: nat)
    requires q.Dict? && Py.Hashable(FieldOrNull(q, "name"))
    requires Py.Get(answers, FieldOrNull(q, "name")) == Some(v) && !v.Null?
    requires FieldOrNull(q, "type") == Str("enum") && FieldOrNull(q, "choices") == List(choices)
    requires k < |choices| && Py.Eq(v, choices[k])
    ensures CheckQuestion(q, answers) == None
  {
  }

  // ---------------------------------------------------------------------------
  // Rule collection (`collective_parts`)
  // ---------------------------------------------------------------------------

  /** How raw rows are keyed. As written a raw row of rule i goes under the string
      `"raw_i"`, in the same key space as part numbers (`SharedKeys`); the corrected
      model gives raw rows keys of their own (`SeparateKeys`). */
  datatype KeyMode = SharedKeys | SeparateKeys

  datatype Key = RawKey(index: nat) | PartKey(part: Value)

  /** The Python dict key an entry is stored under. */
  function KeyValue(k: Key): Value {
    match k
    case RawKey(i) => Str("raw_" + NatToString(i))
    case PartKey(p) => p
  }

  predicate SameKey(mode: KeyMode, a: Key, b: Key) {
    if a.RawKey? && b.RawKey? then a.index == b.index
    else if a.PartKey? && b.PartKey? then Py.Eq(a.part, b.part)
    else mode == SharedKeys && Py.Eq(KeyValue(a), KeyValue(b))
  }

  datatype Entry = RawEntry(cells: Value) | QtyEntry(quantity: int)

  /** `collective_parts`: entries in first-insertion order. */
  type Parts = seq<(Key, Entry)>

  function FindKey(mode: KeyMode, parts: Parts, k: Key): (r: Option<nat>)
    ensures r.Some? ==> r.value < |parts| && SameKey(mode, parts[r.value].0, k)
    ensures r.Some? ==> forall j :: 0 <= j < r.value ==> !SameKey(mode, parts[j].0, k)
    ensures r.None? ==> forall j :: 0 <= j < |parts| ==> !SameKey(mode, parts[j].0, k)
    decreases |parts|
  {
    if parts == [] then None
    else if SameKey(mode, parts[0].0, k) then Some(0)
    else match FindKey(mode, parts[1..], k)
      case Some(j) => Some(j + 1)
      case None => None
  }

  /** `collective_parts[f"raw_{i}"] = {"raw": raw}`: overwrites in place or appends. */
  function PutRaw(mode: KeyMode, parts: Parts, i: nat, raw: Value): Parts {
    match FindKey(mode, parts, RawKey(i))
    case Some(j) => parts[j := (parts[j].0, RawEntry(raw))]
    case None => parts + [(RawKey(i), RawEntry(raw))]
  }

  /** Adding `q` of `part`: a repeated part has its quantity increased, a new one is appended. */
  function AddPart(mode: KeyMode, i: nat, parts: Parts, part: Value, q: int): Result<Parts, BomError> {
    if !Py.Hashable(part) then Err(UnhashableKey)
    else match FindKey(mode, parts, PartKey(part))
      case None => Ok(parts + [(PartKey(part), QtyEntry(q))])
      case Some(j) =>
        if parts[j].1.RawEntry? then Err(MergeIntoRawRow(i + 1))
        else Ok(parts[j := (parts[j].0, QtyEntry(parts[j].1.quantity + q))])
  }

  /** The value of the `quantity` field before the integer check. */
  function QuantityValue(qv: Value, answers: Answers, eval: Evaluator): Option<Value> {
    if qv.Str? then eval(qv.s, answers)
    else if qv.Int? || qv.Bool? then Some(qv)
    else None
  }

  /** The `try` block of rule `i`: `Ok(None)` when a condition is falsy, `Ok(Some(q))` for the
      quantity to add. Every failure inside it is reported as section i+1. */
  function RuleQuantity(i: nat, rule: Value, add: Value, answers: Answers, eval: Evaluator)
    : (r: Result<Option<int>, BomError>)
    ensures r.Err? ==> r.error == QuantityError(i + 1)
    ensures r == Ok(None) ==> Py.Truthy(FieldOrNull(rule, "condition"))
    ensures r.Ok? && r.value.Some? ==>
      var qv := FieldOrNull(add, "quantity");
      qv == Int(r.value.value) || (qv.Str? && eval(qv.s, answers) == Some(Int(r.value.value)))
  {
    var cond := FieldOrNull(rule, "condition");
    if Py.Truthy(cond) && !cond.Str? then Err(QuantityError(i + 1))
    else if Py.Truthy(cond) && eval(cond.s, answers).None? then Err(QuantityError(i + 1))
    else if Py.Truthy(cond) && !Py.Truthy(eval(cond.s, answers).value) then Ok(None)
    else match QuantityValue(FieldOrNull(add, "quantity"), answers, eval)
      case None => Err(QuantityError(i + 1))
      case Some(v) => if v.Int? then Ok(Some(v.i)) else Err(QuantityError(i + 1))
  }

  /** One iteration of the rule loop, for rule number `i` (from 0). */
  function StepRule(mode: KeyMode, i: nat, rule: Value, parts: Parts, answers: Answers, eval: Evaluator)
    : Result<Parts, BomError>
  {
    if !rule.Dict? then Err(NotAMapping)
    else
      var add := FieldOrNull(rule, "add");
      if !add.Dict? then Err(NotAMapping)
      else
        var raw := FieldOrNull(add, "raw");
        if Py.Truthy(raw) then Ok(PutRaw(mode, parts, i, raw))
        else if add.fields == map[] then Err(MissingAdd(i + 1))
        else
          var part := FieldOrNull(add, "product");
          if Py.Eq(part, Str("example")) then Ok(parts)
          else match RuleQuantity(i, rule, add, answers, eval)
            case Err(e) => Err(e)
            case Ok(None) => Ok(parts)
            case Ok(Some(q)) => AddPart(mode, i, parts, part, q)
  }

  /** The rule loop over the first `n` rules. */
  function Collect(mode: KeyMode, rules: seq<Value>, n: nat, answers: Answers, eval: Evaluator)
    : Result<Parts, BomError>
    requires n <= |rules|
    decreases n
  {
    if n == 0 then Ok([])
    else match Collect(mode, rules, n - 1, answers, eval)
      case Err(e) => Err(e)
      case Ok(parts) => StepRule(mode, n - 1, rules[n - 1], parts, answers, eval)
  }

  /** Once the rule loop has raised, later rules do not matter. */
  lemma {:induction false} CollectStopsAtError(mode: KeyMode, rules: seq<Value>, n: nat, m: nat, answers: Answers, eval: Evaluator)
    requires n <= m <= |rules|
    requires Collect(mode, rules, n, answers, eval).Err?
    ensures Collect(mode, rules, m, answers, eval) == Collect(mode, rules, n, answers, eval)
    decreases m - n
  {
    if m > n {
      CollectStopsAtError(mode, rules, n, m - 1, answers, eval);
    }
  }

  /** One pass of the rule loop's body, updating the dict of parts. */
  method ApplyRule(mode: KeyMode, i: nat, rule: Value, parts: Parts, answers: Answers, eval: Evaluator)
    returns (r: Result<Parts, BomError>)
    ensures r == StepRule(mode, i, rule, parts, answers, eval)
  {
    if !rule.Dict? { return Err(NotAMapping); }
    var add := FieldOrNull(rule, "add");
    if !add.Dict? { return Err(NotAMapping); }
    var updated := parts;
    var raw := FieldOrNull(add, "raw");
    if Py.Truthy(raw) {
      var j := FindKey(mode, updated, RawKey(i));
      if j.Some? {
        updated := updated[j.value := (updated[j.value].0, RawEntry(raw))];
      } else {
        updated := updated + [(RawKey(i), RawEntry(raw))];
      }
      return Ok(updated);
    }
    if add.fields == map[] { return Err(MissingAdd(i + 1)); }
    var part := FieldOrNull(add, "product");
    if Py.Eq(part, Str("example")) { return Ok(updated); }
    var q := RuleQuantity(i, rule, add, answers, eval);
    if q.Err? { return Err(q.error); }
    if q.value.None? { return Ok(updated); }
    if !Py.Hashable(part) { return Err(UnhashableKey); }
    var j := FindKey(mode, updated, PartKey(part));
    if j.None? {
      updated := updated + [(PartKey(part), QtyEntry(q.value.value))];
    } else if updated[j.value].1.RawEntry? {
      return Err(MergeIntoRawRow(i + 1));
    } else {
      var total := updated[j.value].1.quantity + q.value.value;
      updated := updated[j.value := (updated[j.value].0, QtyEntry(total))];
    }
    return Ok(updated);
  }

  /** The rule loop: `for i, rule in enumerate(products)`, stopping at the first error. */
  method CollectParts(mode: KeyMode, rules: seq<Value>, answers: Answers, eval: Evaluator)
    returns (r: Result<Parts, BomError>)
    ensures r == Collect(mode, rules, |rules|, answers, eval)
  {
    var parts: Parts := [];
    var i := 0;
    while i < |rules|
      invariant 0 <= i <= |rules|
      invariant Collect(mode, rules, i, answers, eval) == Ok(parts)
    {
      var step := ApplyRule(mode, i, rules[i], parts, answers, eval);
      if step.Err? {
        CollectStopsAtError(mode, rules, i + 1, |rules|, answers, eval);
        return step;
      }
      parts := step.value;
      i := i + 1;
    }
    return Ok(parts);
  }

  // ---------------------------------------------------------------------------
  // Rows (the second loop) and the whole generation
  // ---------------------------------------------------------------------------

  datatype Row =
    | RawRow(cells: seq<Value>)
    | ProductRow(part: Value, product: Product, quantity: int)

  /** The part number Django compares a lookup value with; `None` matches no product. */
  function LookupName(part: Value): Option<string> {
    match part
    case Str(s) => Some(s)
    case Int(i) => Some(IntToString(i))
    case Bool(b) => Some(if b then "True" else "False")
    case _ => None
  }

  /** The row written for one collected entry. */
  function EmitRow(k: Key, e: Entry, catalog: Catalog): (r: Result<Row, BomError>)
    ensures e.RawEntry? ==>
      (r.Ok? <==> e.cells.List? && |e.cells.items| <= ColumnCount)
      && (r.Ok? ==> r.value == RawRow(e.cells.items))
      && (e.cells.List? && |e.cells.items| > ColumnCount ==> r == Err(RawRowTooLong))
    ensures e.QtyEntry? ==>
      var name := LookupName(KeyValue(k));
      (r.Ok? <==> name.Some? && name.value in catalog && Priced(catalog[name.value]))
      && (r.Ok? ==> r.value == ProductRow(KeyValue(k), catalog[name.value], e.quantity))
      && (r.Err? && (name.None? || name.value !in catalog) ==> r.error == ProductNotFound(KeyValue(k)))
      && (r.Err? && name.Some? && name.value in catalog ==>
            r.error == (if catalog[name.value].discount.None? then NoDiscount(KeyValue(k))
                        else NoListPrice(KeyValue(k))))
  {
    match e
    case RawEntry(cells) =>
      var n := Py.Len(cells);
      if n.None? then Err(RawRowNotAList)
      else if n.value > ColumnCount then Err(RawRowTooLong)
      else if !cells.List? then Err(RawRowNotAList)
      else Ok(RawRow(cells.items))
    case QtyEntry(q) =>
      var part := KeyValue(k);
      var name := LookupName(part);
      if name.None? || name.value !in catalog then Err(ProductNotFound(part))
      else if catalog[name.value].discount.None? then Err(NoDiscount(part))
      else if catalog[name.value].listPrice.None? then Err(NoListPrice(part))
      else Ok(ProductRow(part, catalog[name.value], q))
  }

  /** The rows of the entries, in dict order; the first failing entry aborts. */
  function Rows(parts: Parts, catalog: Catalog): Result<seq<Row>, BomError>
    decreases |parts|
  {
    if parts == [] then Ok([])
    else match Rows(parts[..|parts| - 1], catalog)
      case Err(e) => Err(e)
      case Ok(rows) =>
        var row := EmitRow(parts[|parts| - 1].0, parts[|parts| - 1].1, catalog);
        if row.Err? then Err(row.error) else Ok(rows + [row.value])
  }

  /** The second loop, over the collected entries. */
  method EmitRows(parts: Parts, catalog: Catalog) returns (r: Result<seq<Row>, BomError>)
    ensures r == Rows(parts, catalog)
  {
    var rows: seq<Row> := [];
    var i := 0;
    while i < |parts|
      invariant 0 <= i <= |parts|
      invariant Rows(parts[..i], catalog) == Ok(rows)
    {
      assert parts[..i + 1][..i] == parts[..i];
      var row := EmitRow(parts[i].0, parts[i].1, catalog);
      if row.Err? {
        RowsStopAtError(parts, i + 1, catalog);
        return Err(row.error);
      }
      rows := rows + [row.value];
      i := i + 1;
    }
    assert parts[..i] == parts;
    return Ok(rows);
  }

  lemma {:induction false} RowsStopAtError(parts: Parts, n: nat, catalog: Catalog)
    requires n <= |parts|
    requires Rows(parts[..n], catalog).Err?
    ensures Rows(parts, catalog) == Rows(parts[..n], catalog)
    decreases |parts| - n
  {
    if n < |parts| {
      assert parts[..n + 1][..n] == parts[..n];
      RowsStopAtError(parts, n + 1, catalog);
    } else {
      assert parts[..n] == parts;
    }
  }

  /** `generate_bom_from_yaml(filename, yaml_text, inputs, generate_pdf)`, up to the rows. */
  function Generate(mode: KeyMode, text: string, answers: Answers, generatePdf: bool,
                    load: YamlLoader, eval: Evaluator, catalog: Catalog): Result<seq<Row>, BomError>
  {
    match load(text)
    case None => Err(InvalidYaml)
    case Some(doc) =>
      if !doc.Dict? || "products" !in doc.fields then Err(MissingProductsKey)
      else match Elements(Field(doc, "questions").GetOr(List([])))
        case Err(e) => Err(e)
        case Ok(qs) =>
          match FirstQuestionError(qs, answers)
          case Some(e) => Err(e)
          case None =>
            match Elements(doc.fields["products"])
            case Err(e) => Err(e)
            case Ok(rules) =>
              match Collect(mode, rules, |rules|, answers, eval)
              case Err(e) => Err(e)
              case Ok(parts) =>
                if generatePdf && parts == [] then Err(EmptyBom)
                else Rows(parts, catalog)
  }

  /** BOM generation: parse, validate the answers, collect the parts, emit the rows. */
  method GenerateBom(mode: KeyMode, text: string, answers: Answers, generatePdf: bool,
                     load: YamlLoader, eval: Evaluator, catalog: Catalog)
    returns (r: Result<seq<Row>, BomError>)
    ensures r == Generate(mode, text, answers, generatePdf, load, eval, catalog)
  {
    var parsed := load(text);
    if parsed.None? { return Err(InvalidYaml); }
    var doc := parsed.value;
    if !doc.Dict? || "products" !in doc.fields { return Err(MissingProductsKey); }
    var questions := Elements(Field(doc, "questions").GetOr(List([])));
    if questions.Err? { return Err(questions.error); }
    var err := ValidateAnswers(questions.value, answers);
    if err.Some? { return Err(err.value); }
    var rules := Elements(doc.fields["products"]);
    if rules.Err? { return Err(rules.error); }
    var parts := CollectParts(mode, rules.value, answers, eval);
    if parts.Err? { return Err(parts.error); }
    if generatePdf && parts.value == [] { return Err(EmptyBom); }
    r := EmitRows(parts.value, catalog);
  }
}
