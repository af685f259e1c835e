/** Properties of BOM generation: raw rows are always collected, skipped rules
    contribute nothing, repeated parts merge by summing, entries keep their
    first-insertion position, and generation either fails or yields one row per
    collected entry. */
module BomProperties {
  import opened Wrappers
  import opened Strings
  import opened YamlValue
  import Py = Python
  import opened Bom

  // ---------------------------------------------------------------------------
  // Python equality is an equivalence on the values it relates
  // ---------------------------------------------------------------------------

  lemma NatToStringInjective(i: nat, j: nat)
    requires NatToString(i) == NatToString(j)
    ensures i == j
  {
    DigitsValueOfNatToString(i);
    DigitsValueOfNatToString(j);
  }

  // ---------------------------------------------------------------------------
  // FindKey depends only on the keys
  // ---------------------------------------------------------------------------

  lemma {:induction false} FindKeySameKeys(mode: KeyMode, a: Parts, b: Parts, k: Key)
    requires |a| == |b| && forall j :: 0 <= j < |a| ==> a[j].0 == b[j].0
    ensures FindKey(mode, a, k) == FindKey(mode, b, k)
    decreases |a|
  {
    if a != [] {
      FindKeySameKeys(mode, a[1..], b[1..], k);
    }
  }

  lemma {:induction false} FindKeyAppend(mode: KeyMode, a: Parts, e: (Key, Entry), k: Key)
    ensures FindKey(mode, a + [e], k)
         == if FindKey(mode, a, k).Some? then FindKey(mode, a, k)
            else if SameKey(mode, e.0, k) then Some(|a|) else None
    decreases |a|
  {
    if a != [] {
      assert (a + [e])[1..] == a[1..] + [e];
      FindKeyAppend(mode, a[1..], e, k);
    }
  }

  // ---------------------------------------------------------------------------
  // Entries never move: each rule only rewrites values or appends
  // ---------------------------------------------------------------------------

  predicate KeysExtend(a: Parts, b: Parts) {
    |a| <= |b| && forall j :: 0 <= j < |a| ==> b[j].0 == a[j].0
  }

  lemma StepKeepsKeys(mode: KeyMode, i: nat, rule: Value, parts: Parts, answers: Answers, eval: Evaluator)
    requires StepRule(mode, i, rule, parts, answers, eval).Ok?
    ensures KeysExtend(parts, StepRule(mode, i, rule, parts, answers, eval).value)
  {
  }

  /** Rows keep first-insertion order: the dict after n rules is a prefix, key for key,
      of the dict after any later rule. */
  lemma {:induction false} CollectKeepsKeys(mode: KeyMode, rules: seq<Value>, n: nat, m: nat,
                                           answers: Answers, eval: Evaluator)
    requires n <= m <= |rules|
    requires Collect(mode, rules, m, answers, eval).Ok?
    ensures Collect(mode, rules, n, answers, eval).Ok?
    ensures KeysExtend(Collect(mode, rules, n, answers, eval).value, Collect(mode, rules, m, answers, eval).value)
    decreases m - n
  {
    if n < m {
      var before := Collect(mode, rules, m - 1, answers, eval).value;
      assert Collect(mode, rules, m, answers, eval) == StepRule(mode, m - 1, rules[m - 1], before, answers, eval);
      CollectKeepsKeys(mode, rules, n, m - 1, answers, eval);
      StepKeepsKeys(mode, m - 1, rules[m - 1], before, answers, eval);
    }
  }

  // ---------------------------------------------------------------------------
  // Raw rows
  // ---------------------------------------------------------------------------

  predicate IsRawRule(rule: Value) {
    rule.Dict? && FieldOrNull(rule, "add").Dict? && Py.Truthy(FieldOrNull(FieldOrNull(rule, "add"), "raw"))
  }

  /** A raw rule's step depends neither on the answers nor on the evaluator. */
  lemma RawStepIgnoresAnswers(mode: KeyMode, i: nat, rule: Value, parts: Parts,
                              a1: Answers, e1: Evaluator, a2: Answers, e2: Evaluator)
    requires IsRawRule(rule)
    ensures StepRule(mode, i, rule, parts, a1, e1) == StepRule(mode, i, rule, parts, a2, e2)
    ensures StepRule(mode, i, rule, parts, a1, e1).Ok?
  {
  }

  /** One key cannot stand for the raw rows of two different rules. */
  lemma RawKeysDiffer(mode: KeyMode, k: Key, i: nat, i': nat)
    requires SameKey(mode, k, RawKey(i)) && SameKey(mode, k, RawKey(i'))
    ensures i == i'
  {
    if k.PartKey? {
      var si := Str("raw_" + NatToString(i));
      var si' := Str("raw_" + NatToString(i'));
      Py.EqSymmetric(k.part, si);
      Py.EqTransitive(si, k.part, si');
      assert "raw_" + NatToString(i) == "raw_" + NatToString(i');
      assert NatToString(i) == ("raw_" + NatToString(i))[4..];
      assert NatToString(i') == ("raw_" + NatToString(i'))[4..];
      NatToStringInjective(i, i');
    }
  }

  /** A rule other than i leaves the entry holding raw row i as it is. */
  lemma StepKeepsRawEntry(mode: KeyMode, i': nat, rule: Value, a: Parts, answers: Answers, eval: Evaluator,
                          j: nat, i: nat, raw: Value)
    requires j < |a| && SameKey(mode, a[j].0, RawKey(i)) && a[j].1 == RawEntry(raw) && i' != i
    requires StepRule(mode, i', rule, a, answers, eval).Ok?
    ensures j < |StepRule(mode, i', rule, a, answers, eval).value|
    ensures StepRule(mode, i', rule, a, answers, eval).value[j] == a[j]
  {
    var add := FieldOrNull(rule, "add");
    var raw' := FieldOrNull(add, "raw");
    if Py.Truthy(raw') {
      var f := FindKey(mode, a, RawKey(i'));
      if f.Some? && f.value == j {
        RawKeysDiffer(mode, a[j].0, i, i');
      }
    }
  }

  /** The entry holding raw row i stays at its position, unchanged, through every later rule. */
  lemma {:induction false} RawEntryPersists(mode: KeyMode, rules: seq<Value>, i: nat, m: nat,
                                           answers: Answers, eval: Evaluator, j: nat, raw: Value)
    requires i < m <= |rules|
    requires Collect(mode, rules, i + 1, answers, eval).Ok?
    requires var p := Collect(mode, rules, i + 1, answers, eval).value;
      j < |p| && SameKey(mode, p[j].0, RawKey(i)) && p[j].1 == RawEntry(raw)
    requires Collect(mode, rules, m, answers, eval).Ok?
    ensures var p := Collect(mode, rules, m, answers, eval).value;
      j < |p| && SameKey(mode, p[j].0, RawKey(i)) && p[j].1 == RawEntry(raw)
    decreases m
  {
    if m > i + 1 {
      CollectKeepsKeys(mode, rules, m - 1, m, answers, eval);
      RawEntryPersists(mode, rules, i, m - 1, answers, eval, j, raw);
      var a := Collect(mode, rules, m - 1, answers, eval).value;
      StepKeepsRawEntry(mode, m - 1, rules[m - 1], a, answers, eval, j, i, raw);
    }
  }

  lemma RawStepPutsRaw(mode: KeyMode, i: nat, rule: Value, parts: Parts, answers: Answers, eval: Evaluator)
    requires IsRawRule(rule)
    ensures StepRule(mode, i, rule, parts, answers, eval)
         == Ok(PutRaw(mode, parts, i, FieldOrNull(FieldOrNull(rule, "add"), "raw")))
  {
  }

  lemma PutRawHolds(mode: KeyMode, parts: Parts, i: nat, raw: Value)
    ensures var p := PutRaw(mode, parts, i, raw);
      exists j :: 0 <= j < |p| && SameKey(mode, p[j].0, RawKey(i)) && p[j].1 == RawEntry(raw)
  {
    var p := PutRaw(mode, parts, i, raw);
    match FindKey(mode, parts, RawKey(i))
    case Some(j) => assert SameKey(mode, p[j].0, RawKey(i));
    case None => assert SameKey(mode, p[|parts|].0, RawKey(i));
  }

  /** A rule whose `add.raw` is non-empty is always collected: whenever the rule loop
      succeeds, the dict holds that raw row under rule i's key. */
  lemma RawRuleCollected(mode: KeyMode, rules: seq<Value>, i: nat, answers: Answers, eval: Evaluator)
    requires i < |rules| && IsRawRule(rules[i])
    requires Collect(mode, rules, |rules|, answers, eval).Ok?
    ensures var p := Collect(mode, rules, |rules|, answers, eval).value;
      exists j :: 0 <= j < |p| && SameKey(mode, p[j].0, RawKey(i))
                  && p[j].1 == RawEntry(FieldOrNull(FieldOrNull(rules[i], "add"), "raw"))
  {
    var raw := FieldOrNull(FieldOrNull(rules[i], "add"), "raw");
    CollectKeepsKeys(mode, rules, i + 1, |rules|, answers, eval);
    var a := Collect(mode, rules, i, answers, eval).value;
    RawStepPutsRaw(mode, i, rules[i], a, answers, eval);
    PutRawHolds(mode, a, i, raw);
    var b := Collect(mode, rules, i + 1, answers, eval).value;
    var j :| 0 <= j < |b| && SameKey(mode, b[j].0, RawKey(i)) && b[j].1 == RawEntry(raw);
    RawEntryPersists(mode, rules, i, |rules|, answers, eval, j, raw);
  }

  // ---------------------------------------------------------------------------
  // Rules that contribute nothing
  // ---------------------------------------------------------------------------

  /** A product rule (a non-empty `add` dict without a truthy `raw`). */
  predicate IsProductRule(rule: Value) {
    && rule.Dict?
    && FieldOrNull(rule, "add").Dict?
    && !Py.Truthy(FieldOrNull(FieldOrNull(rule, "add"), "raw"))
    && FieldOrNull(rule, "add").fields != map[]
  }

  /** The product `"example"` is skipped, whatever its condition and quantity. */
  lemma ExampleRuleSkipped(mode: KeyMode, i: nat, rule: Value, parts: Parts, answers: Answers, eval: Evaluator)
    requires IsProductRule(rule)
    requires FieldOrNull(FieldOrNull(rule, "add"), "product") == Str("example")
    ensures StepRule(mode, i, rule, parts, answers, eval) == Ok(parts)
  {
  }

  /** The rule with its quantity replaced by `q`. */
  function WithQuantity(rule: Value, q: Value): Value
    requires rule.Dict? && FieldOrNull(rule, "add").Dict?
  {
    var add := rule.fields["add"];
    Dict(rule.fields["add" := Dict(add.fields["quantity" := q])])
  }

  /** A rule whose non-empty condition evaluates falsy contributes nothing, and its
      quantity is never evaluated: any other quantity gives the same outcome. */
  lemma FalseConditionSkipped(mode: KeyMode, i: nat, rule: Value, parts: Parts, answers: Answers,
                              eval: Evaluator, q: Value)
    requires IsProductRule(rule)
    requires var cond := FieldOrNull(rule, "condition");
      cond.Str? && cond.s != "" && eval(cond.s, answers).Some? && !Py.Truthy(eval(cond.s, answers).value)
    ensures StepRule(mode, i, rule, parts, answers, eval) == Ok(parts)
    ensures StepRule(mode, i, WithQuantity(rule, q), parts, answers, eval) == Ok(parts)
  {
    var rule' := WithQuantity(rule, q);
    assert FieldOrNull(rule', "condition") == FieldOrNull(rule, "condition");
    assert FieldOrNull(FieldOrNull(rule', "add"), "raw") == FieldOrNull(FieldOrNull(rule, "add"), "raw");
    assert FieldOrNull(FieldOrNull(rule', "add"), "product") == FieldOrNull(FieldOrNull(rule, "add"), "product");
  }

  /** A literal boolean quantity is rejected even though `isinstance(True, int)` holds. */
  lemma BooleanQuantityRejected(i: nat, rule: Value, add: Value, answers: Answers, eval: Evaluator, b: bool)
    requires !Py.Truthy(FieldOrNull(rule, "condition"))
    requires FieldOrNull(add, "quantity") == Bool(b)
    ensures RuleQuantity(i, rule, add, answers, eval) == Err(QuantityError(i + 1))
  {
  }

  // ---------------------------------------------------------------------------
  // Repeated parts merge by summing (raw rows keyed apart from parts)
  // ---------------------------------------------------------------------------

  /** The part and quantity rule i adds when the rule loop reaches it, if it adds one. */
  function Contribution(i: nat, rule: Value, answers: Answers, eval: Evaluator): Option<(Value, int)> {
    if !IsProductRule(rule) then None
    else
      var add := FieldOrNull(rule, "add");
      var part := FieldOrNull(add, "product");
      if Py.Eq(part, Str("example")) || !Py.Hashable(part) then None
      else match RuleQuantity(i, rule, add, answers, eval)
        case Ok(Some(q)) => Some((part, q))
        case _ => None
  }

  /** The sum of the quantities that the first n rules add for part `p`. */
  function Total(rules: seq<Value>, n: nat, p: Value, answers: Answers, eval: Evaluator): int
    requires n <= |rules|
  {
    if n == 0 then 0
    else
      var c := Contribution(n - 1, rules[n - 1], answers, eval);
      Total(rules, n - 1, p, answers, eval) + (if c.Some? && Py.Eq(c.value.0, p) then c.value.1 else 0)
  }

  /** Some rule among the first n adds part `p`. */
  predicate Contributes(rules: seq<Value>, n: nat, p: Value, answers: Answers, eval: Evaluator)
    requires n <= |rules|
  {
    exists k :: 0 <= k < n && Contribution(k, rules[k], answers, eval).Some?
                && Py.Eq(Contribution(k, rules[k], answers, eval).value.0, p)
  }

  /** Part `p` is never taken for a raw row's key. With raw rows keyed apart every part is;
      with the shared `raw_<i>` keys, exactly the parts that do not equal some `"raw_<i>"`. */
  ghost predicate KeyedApart(mode: KeyMode, p: Value) {
    forall i: nat :: !SameKey(mode, RawKey(i), PartKey(p))
  }

  /** Under the shared keys, a part that is not a string starting with `raw_` is kept apart. */
  lemma NotRawNameApart(p: Value)
    requires !(p.Str? && "raw_" <= p.s)
    ensures KeyedApart(SharedKeys, p)
  {
    forall i: nat ensures !SameKey(SharedKeys, RawKey(i), PartKey(p)) {
      assert "raw_" <= "raw_" + NatToString(i);
    }
  }

  /** The part keys of equal parts are found at the same place. */
  lemma {:induction false} FindEqualParts(mode: KeyMode, a: Parts, x: Value, p: Value)
    requires Py.Eq(x, p)
    ensures FindKey(mode, a, PartKey(x)) == FindKey(mode, a, PartKey(p))
    decreases |a|
  {
    if a != [] {
      var kv := KeyValue(a[0].0);
      Py.EqSymmetric(x, p);
      if Py.Eq(kv, x) { Py.EqTransitive(kv, x, p); }
      if Py.Eq(kv, p) { Py.EqTransitive(kv, p, x); }
      FindEqualParts(mode, a[1..], x, p);
    }
  }

  /** Parts that differ are found at different places. */
  lemma DifferentPartsDifferentPlaces(mode: KeyMode, a: Parts, x: Value, p: Value)
    requires !Py.Eq(x, p)
    requires FindKey(mode, a, PartKey(x)).Some? && FindKey(mode, a, PartKey(p)).Some?
    ensures FindKey(mode, a, PartKey(x)) != FindKey(mode, a, PartKey(p))
  {
    var j := FindKey(mode, a, PartKey(x)).value;
    var kv := KeyValue(a[j].0);
    if Py.Eq(kv, x) && Py.Eq(kv, p) {
      Py.EqSymmetric(kv, x);
      Py.EqTransitive(x, kv, p);
    }
  }

  /** A key that stands for raw row i does not stand for a part kept apart. */
  lemma RawKeyIsNotPart(mode: KeyMode, k: Key, i: nat, p: Value)
    requires SameKey(mode, k, RawKey(i)) && KeyedApart(mode, p)
    ensures !SameKey(mode, k, PartKey(p))
  {
    assert !SameKey(mode, RawKey(i), PartKey(p));
    if k.PartKey? && Py.Eq(k.part, KeyValue(RawKey(i))) && Py.Eq(k.part, p) {
      Py.EqSymmetric(k.part, KeyValue(RawKey(i)));
      Py.EqTransitive(KeyValue(RawKey(i)), k.part, p);
    }
  }

  /** The invariant of the merge: where part p sits in the dict and what it holds. */
  predicate MergeInvariant(mode: KeyMode, parts: Parts, p: Value, present: bool, total: int) {
    && (FindKey(mode, parts, PartKey(p)).Some? <==> present)
    && (present ==> parts[FindKey(mode, parts, PartKey(p)).value].1 == QtyEntry(total))
    && (!present ==> total == 0)
  }

  /** Storing a raw row keeps the merge invariant of a part kept apart from raw keys. */
  lemma RawStepMerges(mode: KeyMode, i: nat, raw: Value, a: Parts, p: Value, present: bool, total: int)
    requires KeyedApart(mode, p) && MergeInvariant(mode, a, p, present, total)
    ensures MergeInvariant(mode, PutRaw(mode, a, i, raw), p, present, total)
  {
    match FindKey(mode, a, RawKey(i))
    case Some(j) =>
      RawKeyIsNotPart(mode, a[j].0, i, p);
      FindKeySameKeys(mode, a, PutRaw(mode, a, i, raw), PartKey(p));
    case None =>
      assert !SameKey(mode, RawKey(i), PartKey(p));
      FindKeyAppend(mode, a, (RawKey(i), RawEntry(raw)), PartKey(p));
  }

  /** Adding `q` of part `x` adds `q` to the total of every part equal to `x` and leaves the others. */
  lemma AddStepMerges(mode: KeyMode, i: nat, a: Parts, x: Value, q: int, p: Value, present: bool, total: int)
    requires MergeInvariant(mode, a, p, present, total) && AddPart(mode, i, a, x, q).Ok?
    ensures var adds := Py.Eq(x, p);
      MergeInvariant(mode, AddPart(mode, i, a, x, q).value, p, present || adds, total + (if adds then q else 0))
  {
    var b := AddPart(mode, i, a, x, q).value;
    if Py.Eq(x, p) { FindEqualParts(mode, a, x, p); }
    match FindKey(mode, a, PartKey(x))
    case None =>
      FindKeyAppend(mode, a, (PartKey(x), QtyEntry(q)), PartKey(p));
    case Some(j) =>
      FindKeySameKeys(mode, a, b, PartKey(p));
      if !Py.Eq(x, p) && present { DifferentPartsDifferentPlaces(mode, a, x, p); }
  }

  /** One rule moves the merge invariant forward by its own contribution. */
  lemma StepMerges(mode: KeyMode, i: nat, rule: Value, a: Parts, answers: Answers, eval: Evaluator,
                   p: Value, present: bool, total: int, b: Parts, present': bool, total': int)
    requires KeyedApart(mode, p)
    requires StepRule(mode, i, rule, a, answers, eval) == Ok(b)
    requires MergeInvariant(mode, a, p, present, total)
    requires var c := Contribution(i, rule, answers, eval);
      var adds := c.Some? && Py.Eq(c.value.0, p);
      present' == (present || adds) && total' == total + (if adds then c.value.1 else 0)
    ensures MergeInvariant(mode, b, p, present', total')
  {
    var c := Contribution(i, rule, answers, eval);
    if IsRawRule(rule) {
      var raw := FieldOrNull(FieldOrNull(rule, "add"), "raw");
      assert b == PutRaw(mode, a, i, raw);
      RawStepMerges(mode, i, raw, a, p, present, total);
    } else if c.Some? {
      var add := FieldOrNull(rule, "add");
      assert RuleQuantity(i, rule, add, answers, eval) == Ok(Some(c.value.1));
      assert b == AddPart(mode, i, a, c.value.0, c.value.1).value;
      AddStepMerges(mode, i, a, c.value.0, c.value.1, p, present, total);
    } else {
      assert b == a;
    }
  }

  /** `Contributes`, rule by rule. */
  predicate AddsPart(rules: seq<Value>, n: nat, p: Value, answers: Answers, eval: Evaluator)
    requires n <= |rules|
  {
    if n == 0 then false
    else
      var c := Contribution(n - 1, rules[n - 1], answers, eval);
      AddsPart(rules, n - 1, p, answers, eval) || (c.Some? && Py.Eq(c.value.0, p))
  }

  lemma {:induction false} AddsPartIff(rules: seq<Value>, n: nat, p: Value, answers: Answers, eval: Evaluator)
    requires n <= |rules|
    ensures AddsPart(rules, n, p, answers, eval) <==> Contributes(rules, n, p, answers, eval)
    decreases n
  {
    if n > 0 {
      AddsPartIff(rules, n - 1, p, answers, eval);
      ContributesStep(rules, n, p, answers, eval);
    }
  }

  /** The merge invariant after `n` rules, by induction over the rule loop. */
  lemma {:induction false} MergedByRule(mode: KeyMode, rules: seq<Value>, n: nat, answers: Answers, eval: Evaluator,
                                        p: Value)
    requires n <= |rules| && KeyedApart(mode, p)
    requires Collect(mode, rules, n, answers, eval).Ok?
    ensures var parts := Collect(mode, rules, n, answers, eval).value;
      MergeInvariant(mode, parts, p, AddsPart(rules, n, p, answers, eval), Total(rules, n, p, answers, eval))
    decreases n
  {
    if n > 0 {
      CollectStep(mode, rules, n, answers, eval);
      MergedByRule(mode, rules, n - 1, answers, eval, p);
      StepMerges(mode, n - 1, rules[n - 1], Collect(mode, rules, n - 1, answers, eval).value, answers, eval, p,
                 AddsPart(rules, n - 1, p, answers, eval), Total(rules, n - 1, p, answers, eval),
                 Collect(mode, rules, n, answers, eval).value,
                 AddsPart(rules, n, p, answers, eval), Total(rules, n, p, answers, eval));
    }
  }

  /** Repeated parts merge into one entry whose quantity is the sum of their quantities:
      after the rule loop, a part that is never taken for a raw row's key has an entry
      exactly when some rule added it, and that entry holds the total of what the rules
      added for it. */
  lemma MergedQuantities(mode: KeyMode, rules: seq<Value>, n: nat, answers: Answers, eval: Evaluator, p: Value)
    requires n <= |rules| && KeyedApart(mode, p)
    requires Collect(mode, rules, n, answers, eval).Ok?
    ensures var parts := Collect(mode, rules, n, answers, eval).value;
      MergeInvariant(mode, parts, p, Contributes(rules, n, p, answers, eval), Total(rules, n, p, answers, eval))
  {
    MergedByRule(mode, rules, n, answers, eval, p);
    AddsPartIff(rules, n, p, answers, eval);
  }

  /** Some rule among the first `n` adds `p` exactly when one of the first `n - 1` does or rule `n - 1` does. */
  lemma ContributesStep(rules: seq<Value>, n: nat, p: Value, answers: Answers, eval: Evaluator)
    requires 0 < n <= |rules|
    ensures var c := Contribution(n - 1, rules[n - 1], answers, eval);
      Contributes(rules, n, p, answers, eval) <==>
        Contributes(rules, n - 1, p, answers, eval) || (c.Some? && Py.Eq(c.value.0, p))
  {
    var c := Contribution(n - 1, rules[n - 1], answers, eval);
    if Contributes(rules, n, p, answers, eval) && !(c.Some? && Py.Eq(c.value.0, p)) {
      var k :| 0 <= k < n && Contribution(k, rules[k], answers, eval).Some?
               && Py.Eq(Contribution(k, rules[k], answers, eval).value.0, p);
      assert k < n - 1;
    }
  }

  /** A rule loop that got through `n` rules got through the first `n - 1`, and then took one step. */
  lemma CollectStep(mode: KeyMode, rules: seq<Value>, n: nat, answers: Answers, eval: Evaluator)
    requires 0 < n <= |rules| && Collect(mode, rules, n, answers, eval).Ok?
    ensures Collect(mode, rules, n - 1, answers, eval).Ok?
    ensures Collect(mode, rules, n, answers, eval)
         == StepRule(mode, n - 1, rules[n - 1], Collect(mode, rules, n - 1, answers, eval).value, answers, eval)
  {
  }

  // ---------------------------------------------------------------------------
  // Rows
  // ---------------------------------------------------------------------------

  /** The row loop succeeds exactly when every entry gives a row, and then the rows
      are the entries' rows, one per entry, in dict order. */
  lemma {:induction false} RowsOkIff(parts: Parts, catalog: Catalog)
    ensures Rows(parts, catalog).Ok? <==> forall k :: 0 <= k < |parts| ==> EmitRow(parts[k].0, parts[k].1, catalog).Ok?
    ensures Rows(parts, catalog).Ok? ==>
      var rows := Rows(parts, catalog).value;
      |rows| == |parts| && forall k :: 0 <= k < |parts| ==> rows[k] == EmitRow(parts[k].0, parts[k].1, catalog).value
    decreases |parts|
  {
    if parts != [] {
      var init := parts[..|parts| - 1];
      RowsOkIff(init, catalog);
      assert forall k :: 0 <= k < |init| ==> init[k] == parts[k];
    }
  }

  /** A raw row with more cells than the sheet has columns aborts the whole BOM. */
  lemma TooLongRawRowAborts(parts: Parts, catalog: Catalog, k: nat)
    requires k < |parts| && parts[k].1.RawEntry?
    requires parts[k].1.cells.List? && |parts[k].1.cells.items| > ColumnCount
    ensures Rows(parts, catalog).Err?
  {
    RowsOkIff(parts, catalog);
  }

  /** A part missing from the catalog aborts the whole BOM. */
  lemma UnknownProductAborts(parts: Parts, catalog: Catalog, k: nat)
    requires k < |parts| && parts[k].1.QtyEntry?
    requires LookupName(KeyValue(parts[k].0)).None? || LookupName(KeyValue(parts[k].0)).value !in catalog
    ensures Rows(parts, catalog).Err?
  {
    RowsOkIff(parts, catalog);
  }

  /** A catalogued part without a list price or a discount aborts the whole BOM too. */
  lemma UnpricedProductAborts(parts: Parts, catalog: Catalog, k: nat)
    requires k < |parts| && parts[k].1.QtyEntry?
    requires LookupName(KeyValue(parts[k].0)).Some? && LookupName(KeyValue(parts[k].0)).value in catalog
    requires !Priced(catalog[LookupName(KeyValue(parts[k].0)).value])
    ensures Rows(parts, catalog).Err?
  {
    RowsOkIff(parts, catalog);
  }

  // ---------------------------------------------------------------------------
  // The whole generation
  // ---------------------------------------------------------------------------

  /** A generated BOM implies a well-formed document whose every question accepted its
      answer, a successful rule loop, and one row per collected entry. */
  lemma GeneratedImpliesAccepted(mode: KeyMode, text: string, answers: Answers, generatePdf: bool,
                                 load: YamlLoader, eval: Evaluator, catalog: Catalog)
    requires Generate(mode, text, answers, generatePdf, load, eval, catalog).Ok?
    ensures load(text).Some? && load(text).value.Dict? && "products" in load(text).value.fields
    ensures var doc := load(text).value;
      var qs := Elements(Field(doc, "questions").GetOr(List([])));
      var rules := Elements(doc.fields["products"]);
      && qs.Ok? && (forall k :: 0 <= k < |qs.value| ==> CheckQuestion(qs.value[k], answers) == None)
      && rules.Ok? && Collect(mode, rules.value, |rules.value|, answers, eval).Ok?
      && |Generate(mode, text, answers, generatePdf, load, eval, catalog).value|
         == |Collect(mode, rules.value, |rules.value|, answers, eval).value|
  {
    var doc := load(text).value;
    var qs := Elements(Field(doc, "questions").GetOr(List([])));
    AnswersAcceptedIff(qs.value, answers);
    var rules := Elements(doc.fields["products"]);
    RowsOkIff(Collect(mode, rules.value, |rules.value|, answers, eval).value, catalog);
  }

  /** When a PDF is asked for, a generated BOM is never empty. */
  lemma PdfBomNotEmpty(mode: KeyMode, text: string, answers: Answers,
                       load: YamlLoader, eval: Evaluator, catalog: Catalog)
    requires Generate(mode, text, answers, true, load, eval, catalog).Ok?
    ensures Generate(mode, text, answers, true, load, eval, catalog).value != []
  {
    GeneratedImpliesAccepted(mode, text, answers, true, load, eval, catalog);
  }

  /** The dry run used when a pattern is saved never fails with `EmptyBom`: only a PDF
      request turns an empty BOM into an error. */
  lemma DryRunNeverEmpty(mode: KeyMode, text: string, answers: Answers,
                         load: YamlLoader, eval: Evaluator, catalog: Catalog)
    ensures Generate(mode, text, answers, false, load, eval, catalog) != Err(EmptyBom)
  {
    var r := Generate(mode, text, answers, false, load, eval, catalog);
    if load(text).Some? && load(text).value.Dict? && "products" in load(text).value.fields {
      var doc := load(text).value;
      var qs := Elements(Field(doc, "questions").GetOr(List([])));
      var rules := Elements(doc.fields["products"]);
      if qs.Ok? {
        var qe := FirstQuestionError(qs.value, answers);
        if qe.Some? {
          assert r == Err(qe.value);
          var k :| 0 <= k < |qs.value| && CheckQuestion(qs.value[k], answers) == qe;
          QuestionErrorNotEmpty(qs.value[k], answers);
        } else if rules.Ok? {
          var c := Collect(mode, rules.value, |rules.value|, answers, eval);
          CollectErrorIsRuleError(mode, rules.value, |rules.value|, answers, eval);
          if c.Ok? {
            assert r == Rows(c.value, catalog);
            RowsErrorIsRowError(c.value, catalog);
          } else {
            assert r == Err(c.error);
          }
        } else {
          assert r == Err(rules.error);
        }
      } else {
        assert r == Err(qs.error);
      }
    }
  }

  lemma QuestionErrorNotEmpty(q: Value, answers: Answers)
    ensures CheckQuestion(q, answers) != Some(EmptyBom)
  {
  }

  /** The rule loop never reports an empty BOM. */
  lemma {:induction false} CollectErrorIsRuleError(mode: KeyMode, rules: seq<Value>, n: nat, answers: Answers, eval: Evaluator)
    requires n <= |rules|
    ensures Collect(mode, rules, n, answers, eval) != Err(EmptyBom)
    decreases n
  {
    if n > 0 {
      CollectErrorIsRuleError(mode, rules, n - 1, answers, eval);
    }
  }

  /** Every error of the row loop is one of the row errors. */
  lemma {:induction false} RowsErrorIsRowError(parts: Parts, catalog: Catalog)
    ensures Rows(parts, catalog).Err? ==>
      || Rows(parts, catalog).error in {RawRowTooLong, RawRowNotAList}
      || Rows(parts, catalog).error.ProductNotFound?
      || Rows(parts, catalog).error.NoDiscount?
      || Rows(parts, catalog).error.NoListPrice?
    decreases |parts|
  {
    if parts != [] {
      RowsErrorIsRowError(parts[..|parts| - 1], catalog);
    }
  }

  /** The cable question document: a boolean and an integer question without bounds, and one
      rule adding two cables per cable run when cables are needed. */
  function CableDocument(): Value {
    Dict(map[
      "questions" := List([
        Dict(map["name" := Str("needs_cables"), "type" := Str("boolean"), "default" := Bool(false)]),
        Dict(map["name" := Str("num_cables"), "type" := Str("integer"), "default" := Int(2)])
      ]),
      "products" := List([
        Dict(map["condition" := Str("needs_cables == True"),
                 "add" := Dict(map["product" := Str("P1"), "quantity" := Str("num_cables * 2")])])
      ])
    ])
  }

  function CableAnswers(needs: bool, count: int): Answers {
    [(Str("needs_cables"), Bool(needs)), (Str("num_cables"), Int(count))]
  }

  /** The questions of the cable document: a boolean and an unbounded integer. */
  lemma CableQuestionsShape()
    ensures Field(CableDocument(), "questions").GetOr(List([])).List?
    ensures var qs := Field(CableDocument(), "questions").GetOr(List([])).items;
      && |qs| == 2 && qs[0].Dict? && qs[1].Dict?
      && FieldOrNull(qs[0], "name") == Str("needs_cables") && FieldOrNull(qs[0], "type") == Str("boolean")
      && FieldOrNull(qs[1], "name") == Str("num_cables") && FieldOrNull(qs[1], "type") == Str("integer")
      && "min" !in qs[1].fields && "max" !in qs[1].fields
  {
  }

  lemma CableAnswerLookups(needs: bool, count: int)
    ensures Py.Get(CableAnswers(needs, count), Str("needs_cables")) == Some(Bool(needs))
    ensures Py.Get(CableAnswers(needs, count), Str("num_cables")) == Some(Int(count))
  {
    var answers := CableAnswers(needs, count);
    assert "num_cables"[0] != "needs_cables"[1];
    assert !Py.Eq(Str("needs_cables"), Str("num_cables"));
    assert Py.Find(answers[1..], Str("num_cables")) == Some(0);
  }

  /** Both answers of the cable document are accepted: the integer question has no bounds. */
  lemma CableAnswersAccepted(needs: bool, count: int)
    ensures Elements(Field(CableDocument(), "questions").GetOr(List([]))).Ok?
    ensures FirstQuestionError(Elements(Field(CableDocument(), "questions").GetOr(List([]))).value,
                               CableAnswers(needs, count)) == None
  {
    CableQuestionsShape();
    var qs := Field(CableDocument(), "questions").GetOr(List([])).items;
    var answers := CableAnswers(needs, count);
    CableAnswerLookups(needs, count);
    BooleanAnswered(qs[0], answers, needs);
    UnboundedIntegerAccepted(qs[1], answers, count);
    AnswersAcceptedIff(qs, answers);
  }

  /** The cable rule adds twice the number of runs when cables are needed. */
  lemma CableRuleCollected(mode: KeyMode, eval: Evaluator, needs: bool)
    requires eval("needs_cables == True", CableAnswers(needs, 3)) == Some(Bool(needs))
    requires needs ==> eval("num_cables * 2", CableAnswers(needs, 3)) == Some(Int(6))
    ensures Elements(CableDocument().fields["products"]).Ok?
    ensures var rules := Elements(CableDocument().fields["products"]).value;
      Collect(mode, rules, |rules|, CableAnswers(needs, 3), eval).Ok?
      && Collect(mode, rules, |rules|, CableAnswers(needs, 3), eval).value
         == if needs then [(PartKey(Str("P1")), QtyEntry(6))] else []
  {
    var rules := CableDocument().fields["products"].items;
    assert |rules| == 1;
    assert "P1"[1] != "example"[1];
    ConditionalProductStep(mode, rules[0], CableAnswers(needs, 3), eval,
                           "needs_cables == True", "P1", "num_cables * 2", needs, 6);
  }

  /** A rule that adds `qty` of a named product when its condition holds, run first. */
  lemma ConditionalProductStep(mode: KeyMode, rule: Value, answers: Answers, eval: Evaluator,
                               cond: string, name: string, quantity: string, holds: bool, qty: int)
    requires rule == Dict(map["condition" := Str(cond),
                              "add" := Dict(map["product" := Str(name), "quantity" := Str(quantity)])])
    requires cond != [] && name != "example"
    requires eval(cond, answers) == Some(Bool(holds))
    requires holds ==> eval(quantity, answers) == Some(Int(qty))
    ensures StepRule(mode, 0, rule, [], answers, eval)
            == Ok(if holds then [(PartKey(Str(name)), QtyEntry(qty))] else [])
  {
    var add := FieldOrNull(rule, "add");
    assert FieldOrNull(rule, "condition") == Str(cond);
    assert FieldOrNull(add, "raw") == Null && FieldOrNull(add, "product") == Str(name);
    assert FieldOrNull(add, "quantity") == Str(quantity);
    assert "product" in add.fields;
    assert !Py.Eq(Str(name), Str("example"));
    if holds {
      assert RuleQuantity(0, rule, add, answers, eval) == Ok(Some(qty));
      assert FindKey(mode, [], PartKey(Str(name))) == None;
      assert AddPart(mode, 0, [], Str(name), qty).value == [(PartKey(Str(name)), QtyEntry(qty))];
    } else {
      assert RuleQuantity(0, rule, add, answers, eval) == Ok(None);
    }
  }

  /** Generation on a document whose answers are accepted and whose rule loop succeeds. */
  lemma GenerateAccepted(mode: KeyMode, text: string, answers: Answers, generatePdf: bool,
                         load: YamlLoader, eval: Evaluator, catalog: Catalog, parts: Parts)
    requires load(text).Some? && load(text).value.Dict? && "products" in load(text).value.fields
    requires var doc := load(text).value;
      && Elements(Field(doc, "questions").GetOr(List([]))).Ok?
      && FirstQuestionError(Elements(Field(doc, "questions").GetOr(List([]))).value, answers) == None
      && Elements(doc.fields["products"]).Ok?
      && Collect(mode, Elements(doc.fields["products"]).value, |Elements(doc.fields["products"]).value|,
                 answers, eval) == Ok(parts)
    ensures Generate(mode, text, answers, generatePdf, load, eval, catalog)
            == if generatePdf && parts == [] then Err(EmptyBom) else Rows(parts, catalog)
  {
  }

  /** With cables needed and three runs, the BOM is one row of six `P1`. */
  lemma CableExampleNeeded(mode: KeyMode, text: string, load: YamlLoader, eval: Evaluator, catalog: Catalog)
    requires load(text) == Some(CableDocument())
    requires "P1" in catalog && Priced(catalog["P1"])
    requires eval("needs_cables == True", CableAnswers(true, 3)) == Some(Bool(true))
    requires eval("num_cables * 2", CableAnswers(true, 3)) == Some(Int(6))
    ensures var r := Generate(mode, text, CableAnswers(true, 3), true, load, eval, catalog);
      r.Ok? && r.value == [ProductRow(Str("P1"), catalog["P1"], 6)]
  {
    CableAnswersAccepted(true, 3);
    CableRuleCollected(mode, eval, true);
    OneProductGenerated(mode, text, CableAnswers(true, 3), load, eval, catalog, "P1", 6);
  }

  /** Generation whose rule loop collects one named product gives one row for it. */
  lemma OneProductGenerated(mode: KeyMode, text: string, answers: Answers, load: YamlLoader, eval: Evaluator,
                            catalog: Catalog, name: string, qty: int)
    requires load(text).Some? && load(text).value.Dict? && "products" in load(text).value.fields
    requires name in catalog && Priced(catalog[name])
    requires var doc := load(text).value;
      && Elements(Field(doc, "questions").GetOr(List([]))).Ok?
      && FirstQuestionError(Elements(Field(doc, "questions").GetOr(List([]))).value, answers) == None
      && Elements(doc.fields["products"]).Ok?
      && Collect(mode, Elements(doc.fields["products"]).value, |Elements(doc.fields["products"]).value|,
                 answers, eval) == Ok([(PartKey(Str(name)), QtyEntry(qty))])
    ensures var r := Generate(mode, text, answers, true, load, eval, catalog);
      r.Ok? && r.value == [ProductRow(Str(name), catalog[name], qty)]
  {
    var p: Parts := [(PartKey(Str(name)), QtyEntry(qty))];
    GenerateAccepted(mode, text, answers, true, load, eval, catalog, p);
    assert LookupName(Str(name)) == Some(name);
    assert EmitRow(p[0].0, p[0].1, catalog).value == ProductRow(Str(name), catalog[name], qty);
    RowsOkIff(p, catalog);
  }

  /** With cables not needed the dry run gives no rows. */
  lemma CableExampleNotNeeded(mode: KeyMode, text: string, load: YamlLoader, eval: Evaluator, catalog: Catalog)
    requires load(text) == Some(CableDocument())
    requires eval("needs_cables == True", CableAnswers(false, 3)) == Some(Bool(false))
    ensures Generate(mode, text, CableAnswers(false, 3), false, load, eval, catalog) == Ok([])
  {
    CableAnswersAccepted(false, 3);
    CableRuleCollected(mode, eval, false);
    var p: Parts := [];
    var rules := Elements(CableDocument().fields["products"]).value;
    assert Collect(mode, rules, |rules|, CableAnswers(false, 3), eval) == Ok(p);
    GenerateAccepted(mode, text, CableAnswers(false, 3), false, load, eval, catalog, p);
  }

  /** With cables not needed, asking for a PDF fails with `EmptyBom`. */
  lemma CableExampleNotNeededPdf(mode: KeyMode, text: string, load: YamlLoader, eval: Evaluator, catalog: Catalog)
    requires load(text) == Some(CableDocument())
    requires eval("needs_cables == True", CableAnswers(false, 3)) == Some(Bool(false))
    ensures Generate(mode, text, CableAnswers(false, 3), true, load, eval, catalog) == Err(EmptyBom)
  {
    CableAnswersAccepted(false, 3);
    CableRuleCollected(mode, eval, false);
    var p: Parts := [];
    var rules := Elements(CableDocument().fields["products"]).value;
    assert Collect(mode, rules, |rules|, CableAnswers(false, 3), eval) == Ok(p);
    GenerateAccepted(mode, text, CableAnswers(false, 3), true, load, eval, catalog, p);
  }

  // ---------------------------------------------------------------------------
  // Raw rows keyed in the part-number space
  // ---------------------------------------------------------------------------

  /** A product whose part number is `"raw_1"` followed by a raw row from rule 1. */
  function CollidingRules(): seq<Value> {
    [ Dict(map["add" := Dict(map["product" := Str("raw_1"), "quantity" := Int(2)])]),
      Dict(map["add" := Dict(map["raw" := List([Str("cable")])])]) ]
  }

  lemma RawKeyText()
    ensures KeyValue(RawKey(0)) == Str("raw_0") && KeyValue(RawKey(1)) == Str("raw_1")
  {
    assert NatToString(0) == "0" && NatToString(1) == "1";
  }

  lemma CollidingProductAdded(mode: KeyMode, answers: Answers, eval: Evaluator)
    ensures Collect(mode, CollidingRules(), 1, answers, eval).Ok?
    ensures Collect(mode, CollidingRules(), 1, answers, eval).value == [(PartKey(Str("raw_1")), QtyEntry(2))]
  {
    var rule := CollidingRules()[0];
    var add := FieldOrNull(rule, "add");
    assert FieldOrNull(add, "raw") == Null && FieldOrNull(add, "product") == Str("raw_1");
    assert FieldOrNull(add, "quantity") == Int(2) && "product" in add.fields;
    assert "raw_1"[0] != "example"[0];
    assert RuleQuantity(0, rule, add, answers, eval) == Ok(Some(2));
    assert FindKey(mode, [], PartKey(Str("raw_1"))) == None;
  }

  /** As written, the raw row of rule 1 replaces the entry of product `"raw_1"`: the
      product and its quantity vanish from the BOM without an error. */
  lemma SharedKeysDropProduct(answers: Answers, eval: Evaluator)
    ensures Collect(SharedKeys, CollidingRules(), 2, answers, eval).Ok?
    ensures Collect(SharedKeys, CollidingRules(), 2, answers, eval).value == [(PartKey(Str("raw_1")), RawEntry(List([Str("cable")])))]
  {
    CollidingProductAdded(SharedKeys, answers, eval);
    RawKeyText();
    var parts: Parts := [(PartKey(Str("raw_1")), QtyEntry(2))];
    assert SameKey(SharedKeys, parts[0].0, RawKey(1));
    assert FindKey(SharedKeys, parts, RawKey(1)) == Some(0);
    assert FieldOrNull(FieldOrNull(CollidingRules()[1], "add"), "raw") == List([Str("cable")]);
  }

  /** With raw rows keyed apart, the product keeps its quantity and the raw row follows it. */
  lemma SeparateKeysKeepProduct(answers: Answers, eval: Evaluator)
    ensures Collect(SeparateKeys, CollidingRules(), 2, answers, eval).Ok?
    ensures Collect(SeparateKeys, CollidingRules(), 2, answers, eval).value == [(PartKey(Str("raw_1")), QtyEntry(2)), (RawKey(1), RawEntry(List([Str("cable")])))]
  {
    CollidingProductAdded(SeparateKeys, answers, eval);
    var parts: Parts := [(PartKey(Str("raw_1")), QtyEntry(2))];
    assert FindKey(SeparateKeys, parts, RawKey(1)) == None;
    assert FieldOrNull(FieldOrNull(CollidingRules()[1], "add"), "raw") == List([Str("cable")]);
  }

  /** A raw row from rule 0 followed by the product `"raw_0"`. */
  function RawThenProduct(): seq<Value> {
    [ Dict(map["add" := Dict(map["raw" := List([Str("cable")])])]),
      Dict(map["add" := Dict(map["product" := Str("raw_0"), "quantity" := Int(1)])]) ]
  }

  lemma RawRowAdded(mode: KeyMode, answers: Answers, eval: Evaluator)
    ensures Collect(mode, RawThenProduct(), 1, answers, eval).Ok?
    ensures Collect(mode, RawThenProduct(), 1, answers, eval).value == [(RawKey(0), RawEntry(List([Str("cable")])))]
  {
    assert FieldOrNull(FieldOrNull(RawThenProduct()[0], "add"), "raw") == List([Str("cable")]);
    assert FindKey(mode, [], RawKey(0)) == None;
  }

  lemma ProductRuleOne(mode: KeyMode, parts: Parts, answers: Answers, eval: Evaluator)
    ensures StepRule(mode, 1, RawThenProduct()[1], parts, answers, eval) == AddPart(mode, 1, parts, Str("raw_0"), 1)
  {
    var rule := RawThenProduct()[1];
    var add := FieldOrNull(rule, "add");
    assert FieldOrNull(add, "raw") == Null && FieldOrNull(add, "product") == Str("raw_0");
    assert FieldOrNull(add, "quantity") == Int(1) && "product" in add.fields;
    assert "raw_0"[0] != "example"[0];
    assert RuleQuantity(1, rule, add, answers, eval) == Ok(Some(1));
  }

  /** As written, the product `"raw_0"` after the raw row of rule 0 fails the whole BOM
      (the `+=` reads a "quantity" the raw entry does not have). */
  lemma SharedKeysRejectProduct(answers: Answers, eval: Evaluator)
    ensures Collect(SharedKeys, RawThenProduct(), 2, answers, eval) == Err(MergeIntoRawRow(2))
  {
    RawRowAdded(SharedKeys, answers, eval);
    ProductRuleOne(SharedKeys, [(RawKey(0), RawEntry(List([Str("cable")])))], answers, eval);
    RawKeyText();
  }

  /** With raw rows keyed apart, the same rules give the raw row and then the product. */
  lemma SeparateKeysAcceptProduct(answers: Answers, eval: Evaluator)
    ensures Collect(SeparateKeys, RawThenProduct(), 2, answers, eval).Ok?
    ensures Collect(SeparateKeys, RawThenProduct(), 2, answers, eval).value == [(RawKey(0), RawEntry(List([Str("cable")]))), (PartKey(Str("raw_0")), QtyEntry(1))]
  {
    RawRowAdded(SeparateKeys, answers, eval);
    var parts: Parts := [(RawKey(0), RawEntry(List([Str("cable")])))];
    ProductRuleOne(SeparateKeys, parts, answers, eval);
    assert FindKey(SeparateKeys, parts, PartKey(Str("raw_0"))) == None;
  }

  /** Under separate keys a part row holds a quantity and a raw row holds raw data. */
  predicate KindsAgree(parts: Parts) {
    forall k :: 0 <= k < |parts| ==> (parts[k].0.PartKey? <==> parts[k].1.QtyEntry?)
  }

  /** With raw rows keyed apart, a product rule never fails on a raw entry. */
  lemma {:induction false} SeparateKeysNeverMergeIntoRaw(rules: seq<Value>, n: nat, answers: Answers, eval: Evaluator)
    requires n <= |rules|
    ensures Collect(SeparateKeys, rules, n, answers, eval).Ok? ==>
      forall k :: 0 <= k < |Collect(SeparateKeys, rules, n, answers, eval).value| ==>
        var e := Collect(SeparateKeys, rules, n, answers, eval).value[k];
        e.0.PartKey? <==> e.1.QtyEntry?
    ensures !Collect(SeparateKeys, rules, n, answers, eval).Err?
            || !Collect(SeparateKeys, rules, n, answers, eval).error.MergeIntoRawRow?
    decreases n
  {
    if n > 0 {
      SeparateKeysNeverMergeIntoRaw(rules, n - 1, answers, eval);
      var before := Collect(SeparateKeys, rules, n - 1, answers, eval);
      if before.Ok? {
        assert KindsAgree(before.value);
        SeparateStepKeepsKinds(n - 1, rules[n - 1], before.value, answers, eval);
        assert Collect(SeparateKeys, rules, n, answers, eval)
               == StepRule(SeparateKeys, n - 1, rules[n - 1], before.value, answers, eval);
      }
    }
  }

  /** One rule under separate keys keeps row kinds apart and never merges into a raw row. */
  lemma SeparateStepKeepsKinds(i: nat, rule: Value, parts: Parts, answers: Answers, eval: Evaluator)
    requires KindsAgree(parts)
    ensures var r := StepRule(SeparateKeys, i, rule, parts, answers, eval);
      (r.Ok? ==> KindsAgree(r.value)) && (r.Err? ==> !r.error.MergeIntoRawRow?)
  {
  }
}
