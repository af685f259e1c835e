/** The BOM build page (`Build`): the answers start from the questions' defaults,
    each input replaces the answer to its own question, a numeric entry is only
    accepted inside the question's bounds and clearing it restores the default,
    and the e-mail dialog checks the address before Send is enabled. */
module BuildPage {
  import opened Wrappers
  import opened Strings
  import opened YamlValue

  /** A question as the page reads it from the pattern. */
  datatype Question = Question(name: string, kind: string, default: Value,
                               min: Option<real>, max: Option<real>, choices: seq<Value>)

  /** What an answer holds: the question's default as loaded, a checkbox state, a
      selected choice, or the number typed in. */
  datatype Answer = FromDefault(v: Value) | Checked(b: bool) | Selected(c: Value) | Typed(x: real)

  type Answers = map<string, Answer>

  // ---------------------------------------------------------------------------
  // Initial answers
  // ---------------------------------------------------------------------------

  /** The answers after the `forEach` over `qs`: each question's default under its name,
      a later question of the same name overwriting an earlier one. */
  function Defaults(qs: seq<Question>): Answers
    decreases |qs|
  {
    if qs == [] then map[]
    else Defaults(qs[..|qs| - 1])[qs[|qs| - 1].name := FromDefault(qs[|qs| - 1].default)]
  }

  /** The answers start with exactly one entry per question name. */
  lemma {:induction false} DefaultsKeys(qs: seq<Question>)
    ensures Defaults(qs).Keys == set k | 0 <= k < |qs| :: qs[k].name
    decreases |qs|
  {
    if qs != [] {
      var init := qs[..|qs| - 1];
      DefaultsKeys(init);
      assert forall k :: 0 <= k < |init| ==> init[k] == qs[k];
    }
  }

  /** A question whose name no later question repeats has its own default as answer. */
  lemma {:induction false} DefaultsLastWins(qs: seq<Question>, i: nat)
    requires i < |qs| && forall j :: i < j < |qs| ==> qs[j].name != qs[i].name
    ensures qs[i].name in Defaults(qs) && Defaults(qs)[qs[i].name] == FromDefault(qs[i].default)
    decreases |qs|
  {
    if i < |qs| - 1 {
      var init := qs[..|qs| - 1];
      assert init[i] == qs[i];
      DefaultsLastWins(init, i);
    }
  }

  /** `initialAnswers`: the loop over `data.questions`; a pattern without questions
      starts with no answers. */
  method InitialAnswers(questions: Option<seq<Question>>) returns (answers: Answers)
    ensures answers == if questions.Some? then Defaults(questions.value) else map[]
  {
    answers := map[];
    if questions.None? {
      return;
    }
    var qs := questions.value;
    var i := 0;
    while i < |qs|
      invariant 0 <= i <= |qs|
      invariant answers == Defaults(qs[..i])
    {
      assert qs[..i + 1][..i] == qs[..i];
      answers := answers[qs[i].name := FromDefault(qs[i].default)];
      i := i + 1;
    }
    assert qs[..|qs|] == qs;
  }

  // ---------------------------------------------------------------------------
  // Answer updates
  // ---------------------------------------------------------------------------

  /** What an input reports: the checkbox, the select, or the numeric field's `floatValue`
      (`None` when the field was emptied). */
  datatype Change = Check(b: bool) | Select(c: Value) | NumberValue(x: Option<real>)

  /** The answer the change stores for `q`; an emptied numeric field falls back to the default. */
  function NewAnswer(q: Question, c: Change): Answer {
    match c
    case Check(b) => Checked(b)
    case Select(v) => Selected(v)
    case NumberValue(None) => FromDefault(q.default)
    case NumberValue(Some(x)) => Typed(x)
  }

  /** `setAnswers({ ...answers, [q.name]: ... })`. */
  function Update(answers: Answers, q: Question, c: Change): (r: Answers)
    ensures r.Keys == answers.Keys + {q.name}
    ensures r[q.name] == NewAnswer(q, c)
    ensures forall k :: k in answers && k != q.name ==> r[k] == answers[k]
  {
    answers[q.name := NewAnswer(q, c)]
  }

  /** Clearing a numeric field right after loading leaves the answers as they were loaded. */
  lemma ClearingRestoresLoaded(qs: seq<Question>, i: nat)
    requires i < |qs| && forall j :: i < j < |qs| ==> qs[j].name != qs[i].name
    ensures Update(Defaults(qs), qs[i], NumberValue(None)) == Defaults(qs)
  {
    DefaultsLastWins(qs, i);
  }

  /** Two changes to different questions commute. */
  lemma UpdatesCommute(answers: Answers, q1: Question, c1: Change, q2: Question, c2: Change)
    requires q1.name != q2.name
    ensures Update(Update(answers, q1, c1), q2, c2) == Update(Update(answers, q2, c2), q1, c1)
  {
  }

  // ---------------------------------------------------------------------------
  // The numeric field
  // ---------------------------------------------------------------------------

  /** A JavaScript number, as far as this page produces them. */
  datatype Number = Finite(x: real) | NaN

  function Pow10(n: nat): (r: real)
    ensures r >= 1.0
  {
    if n == 0 then 1.0 else 10.0 * Pow10(n - 1)
  }

  /** `Number(s)` for the unformatted text the numeric field hands over: an optional `-`,
      digits with at most one `.` and at least one digit; the empty text is `0`;
      anything else is `NaN`. */
  function ToNumber(s: string): Number {
    if s == "" then Finite(0.0)
    else
      var negative := s[0] == '-';
      var body := if negative then s[1..] else s;
      var sign := if negative then -1.0 else 1.0;
      match FirstIndex(body, '.')
      case None =>
        if body != [] && AllDigits(body) then Finite(sign * DigitsValue(body) as real) else NaN
      case Some(k) =>
        var whole, fraction := body[..k], body[k + 1..];
        if AllDigits(whole) && AllDigits(fraction) && (whole != [] || fraction != []) then
          Finite(sign * (DigitsValue(whole) as real + DigitsValue(fraction) as real / Pow10(|fraction|)))
        else NaN
  }

  /** The field reads back every integer it writes. */
  lemma NumberOfInteger(n: int)
    ensures ToNumber(IntToString(n)) == Finite(n as real)
  {
    var s := IntToString(n);
    if n < 0 {
      var digits := NatToString(-n);
      assert s[1..] == digits;
      assert '.' !in digits by {
        forall k | 0 <= k < |digits| ensures digits[k] != '.' {
          assert IsDigit(digits[k]);
        }
      }
      DigitsValueOfNatToString(-n);
    } else {
      assert s[0] != '-' by {
        assert IsDigit(s[0]);
      }
      assert '.' !in s by {
        forall k | 0 <= k < |s| ensures s[k] != '.' {
          assert IsDigit(s[k]);
        }
      }
      DigitsValueOfNatToString(n);
    }
  }

  /** `value <= (bound ?? value)`: a number compared with a missing bound is compared
      with itself; `NaN` compares false with any bound. */
  predicate AtMost(v: Number, bound: Option<real>) {
    bound.None? || (v.Finite? && v.x <= bound.value)
  }

  predicate AtLeast(v: Number, bound: Option<real>) {
    bound.None? || (v.Finite? && v.x >= bound.value)
  }

  /** The `isAllowed` check the numeric field runs on every edit. */
  predicate IsAllowed(value: string, min: Option<real>, max: Option<real>) {
    AtMost(ToNumber(value), max) && AtLeast(ToNumber(value), min)
  }

  /** An integer typed into the field is allowed exactly when it lies within the bounds. */
  lemma IntegerAllowedIff(n: int, min: Option<real>, max: Option<real>)
    ensures IsAllowed(IntToString(n), min, max) <==>
      (min.None? || min.value <= n as real) && (max.None? || n as real <= max.value)
  {
    NumberOfInteger(n);
  }

  /** `floatValue`: the number of the text, missing when the field is empty or holds no number. */
  function FloatValue(value: string): Option<real> {
    if value == "" then None
    else match ToNumber(value)
      case Finite(x) => Some(x)
      case NaN => None
  }

  /** An edit of the numeric field as written: refused edits leave the answers alone,
      accepted ones report their `floatValue`. */
  function EditNumber(answers: Answers, q: Question, value: string): Answers {
    if IsAllowed(value, q.min, q.max) then Update(answers, q, NumberValue(FloatValue(value))) else answers
  }

  /** With a lower bound above zero, emptying the field is refused (the empty text counts
      as `0`), so the answer cannot be cleared back to the default. */
  lemma EmptyingRefusedAboveZero(answers: Answers, q: Question)
    requires q.min.Some? && q.min.value > 0.0
    ensures !IsAllowed("", q.min, q.max)
    ensures EditNumber(answers, q, "") == answers
  {
  }

  /** The check as the clear-to-default rule needs it: the empty field is always accepted. */
  predicate IsAllowedOrEmpty(value: string, min: Option<real>, max: Option<real>) {
    value == "" || IsAllowed(value, min, max)
  }

  function EditNumberCorrected(answers: Answers, q: Question, value: string): Answers {
    if IsAllowedOrEmpty(value, q.min, q.max) then Update(answers, q, NumberValue(FloatValue(value))) else answers
  }

  /** With the corrected check, emptying the field always restores the default, and every
      other text is treated as before. */
  lemma EmptyingRestoresDefault(answers: Answers, q: Question, value: string)
    ensures EditNumberCorrected(answers, q, "")[q.name] == FromDefault(q.default)
    ensures value != "" ==> EditNumberCorrected(answers, q, value) == EditNumber(answers, q, value)
  {
  }

  // ---------------------------------------------------------------------------
  // The e-mail address
  // ---------------------------------------------------------------------------

  /** JavaScript's `\s`. */
  predicate JsSpace(c: char) {
    || c == ' ' || '\t' <= c <= '\r' || c == '\U{A0}' || c == '\U{1680}' || '\U{2000}' <= c <= '\U{200A}'
    || c == '\U{2028}' || c == '\U{2029}' || c == '\U{202F}' || c == '\U{205F}' || c == '\U{3000}'
    || c == '\U{FEFF}'
  }

  /** `[^\s@]`. */
  predicate AddressChar(c: char) { !JsSpace(c) && c != '@' }

  predicate AllAddressChars(s: string) { forall k :: 0 <= k < |s| ==> AddressChar(s[k]) }

  /** The regular expression `^[^\s@]+@[^\s@]+\.[^\s@]+$` matches with its `@` at `i` and
      its `\.` at `k`. */
  predicate MatchesAt(s: string, i: int, k: int) {
    && 0 < i && i + 1 < k && k + 1 < |s| && s[i] == '@' && s[k] == '.'
    && forall j :: 0 <= j < |s| && j != i ==> AddressChar(s[j])
  }

  ghost predicate MatchesEmailPattern(s: string) {
    exists i, k :: MatchesAt(s, i, k)
  }

  /** The test, computed: a non-empty local part before the only `@`, then a domain without
      whitespace or `@` holding a `.` that is neither its first nor its last character. */
  predicate EmailValid(s: string) {
    match FirstIndex(s, '@')
    case None => false
    case Some(i) =>
      var domain := s[i + 1..];
      && i > 0 && AllAddressChars(s[..i]) && AllAddressChars(domain)
      && |domain| >= 3 && '.' in domain[1..|domain| - 1]
  }

  /** The computed test agrees with the regular expression. */
  lemma EmailValidIff(s: string)
    ensures EmailValid(s) <==> MatchesEmailPattern(s)
  {
    if EmailValid(s) {
      var i := FirstIndex(s, '@').value;
      var domain := s[i + 1..];
      var inner := domain[1..|domain| - 1];
      var m :| 0 <= m < |inner| && inner[m] == '.';
      var k := i + 2 + m;
      assert s[k] == '.';
      forall j | 0 <= j < |s| && j != i ensures AddressChar(s[j]) {
        if j < i {
          assert s[..i][j] == s[j];
        } else {
          assert domain[j - i - 1] == s[j];
        }
      }
      assert MatchesAt(s, i, k);
    }
    if MatchesEmailPattern(s) {
      var i, k :| MatchesAt(s, i, k);
      var first := FirstIndex(s, '@');
      assert first.Some? by {
        assert s[i] == '@';
      }
      assert s[first.value] == '@';
      assert first.value == i;
      var domain := s[i + 1..];
      assert AllAddressChars(s[..i]);
      assert AllAddressChars(domain);
      var inner := domain[1..|domain| - 1];
      assert inner[k - i - 2] == '.';
    }
  }

  /** `checkEmail`'s error text for an address. */
  function ErrorFor(value: string): string {
    if EmailValid(value) then "" else "Enter a valid email address"
  }

  /** `disabled={!!error || !emailAddress || loading}` on the Send button. */
  predicate SendDisabled(error: string, address: string, loading: bool) {
    error != "" || address == "" || loading
  }

  /** Once an address has been typed, Send is enabled exactly when the address is valid and
      nothing is loading. */
  lemma SendEnabledIff(value: string, loading: bool)
    ensures !SendDisabled(ErrorFor(value), value, loading) <==> MatchesEmailPattern(value) && !loading
  {
    EmailValidIff(value);
    if EmailValid(value) {
      assert value != "";
    }
  }

  // ---------------------------------------------------------------------------
  // The page's state
  // ---------------------------------------------------------------------------

  class Page {
    var answers: Answers
    var emailAddress: string
    var error: string

    constructor ()
      ensures answers == map[] && emailAddress == "" && error == ""
    {
      answers := map[];
      emailAddress := "";
      error := "";
    }

    /** Send is disabled before any address is typed. */
    predicate Disabled(loading: bool)
      reads this
    {
      SendDisabled(error, emailAddress, loading)
    }

    /** The pattern has arrived: the answers are reset to the defaults. */
    method Load(questions: Option<seq<Question>>)
      modifies this
      ensures answers == (if questions.Some? then Defaults(questions.value) else map[])
      ensures emailAddress == old(emailAddress) && error == old(error)
    {
      answers := InitialAnswers(questions);
    }

    /** A checkbox, select or numeric field reported a change to the answer of `q`. */
    method Change(q: Question, c: Change)
      modifies this
      ensures answers == Update(old(answers), q, c)
      ensures emailAddress == old(emailAddress) && error == old(error)
    {
      answers := answers[q.name := NewAnswer(q, c)];
    }

    /** `checkEmail`: the address is stored and the error text set from it. */
    method CheckEmail(value: string)
      modifies this
      ensures emailAddress == value && error == ErrorFor(value) && answers == old(answers)
      ensures value != "" ==> (!Disabled(false) <==> MatchesEmailPattern(value))
    {
      emailAddress := value;
      if !EmailValid(value) {
        error := "Enter a valid email address";
      } else {
        error := "";
      }
      SendEnabledIff(value, false);
    }
  }
}
