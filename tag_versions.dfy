/** Container tags in the image registry (`tasks/tag_versions.py`). A tag is
    `prefix-YYYY.MM.DD.seq`; the last tag of a prefix is the one with the greatest
    integer tuple (year, month, day, seq), and a new tag takes today's date with the
    next sequence number of the day, or `.1`. The registry is a function from the
    tags endpoint to its response; today's date is a parameter. */
module TagVersions {
  import opened Wrappers
  import opened Strings
  import Py = Python
  import YamlValue

  // ---------------------------------------------------------------------------
  // Dates, as `strftime("%Y.%m.%d")` writes them
  // ---------------------------------------------------------------------------

  /** A calendar date; month lengths are not modelled, only the ranges the format needs. */
  datatype Date = Date(year: int, month: int, day: int)

  predicate ValidDate(d: Date) {
    1000 <= d.year <= 9999 && 1 <= d.month <= 12 && 1 <= d.day <= 31
  }

  /** Two decimal digits, zero-padded. */
  function Pad2(n: nat): (r: string)
    requires n < 100
    ensures |r| == 2 && AllDigits(r) && DigitsValue(r) == n
  {
    DigitsValueOfNatToString(n);
    if n < 10 then
      var r := "0" + NatToString(n);
      assert r[..1] == "0";
      r
    else
      assert NatToString(n) == NatToString(n / 10) + [DigitChar(n % 10)];
      NatToString(n)
  }

  function Year4(n: nat): (r: string)
    requires 1000 <= n <= 9999
    ensures |r| == 4 && AllDigits(r) && DigitsValue(r) == n
  {
    DigitsValueOfNatToString(n);
    assert NatToString(n) == NatToString(n / 10) + [DigitChar(n % 10)];
    assert NatToString(n / 10) == NatToString(n / 100) + [DigitChar(n / 10 % 10)];
    assert NatToString(n / 100) == NatToString(n / 1000) + [DigitChar(n / 100 % 10)];
    NatToString(n)
  }

  /** The text of a date: `YYYY.MM.DD`, from which the date can be read back. */
  predicate DateText(s: string) {
    |s| == 10 && AllDigits(s[..4]) && s[4] == '.' && AllDigits(s[5..7]) && s[7] == '.' && AllDigits(s[8..])
  }

  function DateOfText(s: string): Date
    requires DateText(s)
  {
    Date(DigitsValue(s[..4]), DigitsValue(s[5..7]), DigitsValue(s[8..]))
  }

  /** `strftime("%Y.%m.%d")`: the date reads back from its text. */
  function FormatDate(d: Date): (r: string)
    requires ValidDate(d)
    ensures DateText(r) && DateOfText(r) == d
  {
    var y := Year4(d.year);
    var m := Pad2(d.month);
    var dd := Pad2(d.day);
    var r := y + "." + m + "." + dd;
    assert r[..4] == y && r[5..7] == m && r[8..] == dd;
    r
  }

  // ---------------------------------------------------------------------------
  // The tag filter of get_last_tag
  // ---------------------------------------------------------------------------

  /** How the separators of `-\d{4}.\d{2}.\d{2}.\d+$` are read: as written, each `.` is
      a regular-expression wildcard (any character but a newline); the evident intent
      is a literal dot. */
  datatype Dots = AnyChar | LiteralDot

  predicate Sep(c: char, dots: Dots) {
    match dots
    case AnyChar => c != '\n'
    case LiteralDot => c == '.'
  }

  /** `\d+$`: digits, then the end or a final newline. */
  predicate SeqField(s: string) {
    (s != [] && AllDigits(s)) || (|s| >= 2 && s[|s| - 1] == '\n' && AllDigits(s[..|s| - 1]))
  }

  /** The digits of a sequence field. */
  function SeqDigits(s: string): (d: string)
    requires SeqField(s)
    ensures d != [] && AllDigits(d)
  {
    if s[|s| - 1] == '\n' then s[..|s| - 1] else s
  }

  /** `re.match(prefix + r"-\d{4}.\d{2}.\d{2}.\d+$", tag)`, with the prefix taken literally. */
  predicate MatchesTag(tag: string, prefix: string, dots: Dots) {
    prefix <= tag && |tag| >= |prefix| + 13 &&
    var r := tag[|prefix|..];
    r[0] == '-' && AllDigits(r[1..5]) && Sep(r[5], dots) && AllDigits(r[6..8]) && Sep(r[8], dots)
    && AllDigits(r[9..11]) && Sep(r[11], dots) && SeqField(r[12..])
  }

  /** Every tag the corrected pattern accepts, the written one accepts too. */
  lemma LiteralDotsNarrower(tag: string, prefix: string)
    requires MatchesTag(tag, prefix, LiteralDot)
    ensures MatchesTag(tag, prefix, AnyChar)
  {
  }

  /** `[x for x in tags if tag_regex.match(x)]`. */
  function MatchingTags(tags: seq<string>, prefix: string, dots: Dots): (r: seq<string>)
    ensures forall x :: x in r <==> x in tags && MatchesTag(x, prefix, dots)
    decreases |tags|
  {
    if tags == [] then []
    else
      var rest := MatchingTags(tags[1..], prefix, dots);
      assert tags == [tags[0]] + tags[1..];
      if MatchesTag(tags[0], prefix, dots) then [tags[0]] + rest else rest
  }

  // ---------------------------------------------------------------------------
  // The sort key and Python's max
  // ---------------------------------------------------------------------------

  /** `int(s)`; `None` is the `ValueError` it raises. */
  function PyInt(s: string): Option<int> {
    Py.ToInt(YamlValue.Str(s))
  }

  /** `x.rsplit("-", 1)[-1]`. */
  function AfterLastHyphen(tag: string): string {
    match LastIndex(tag, '-')
    case Some(k) => tag[k + 1..]
    case None => tag
  }

  /** Applies `f` to every element; `None` as soon as one of them gives `None`. */
  function AllSome<A, B>(xs: seq<A>, f: A -> Option<B>): (r: Option<seq<B>>)
    ensures r.Some? <==> forall k :: 0 <= k < |xs| ==> f(xs[k]).Some?
    ensures r.Some? ==> |r.value| == |xs| && forall k :: 0 <= k < |xs| ==> f(xs[k]) == Some(r.value[k])
    decreases |xs|
  {
    if xs == [] then Some([])
    else
      match f(xs[0])
      case None => None
      case Some(y) =>
        match AllSome(xs[1..], f)
        case None => None
        case Some(ys) =>
          assert forall k :: 1 <= k < |xs| ==> xs[k] == xs[1..][k - 1];
          Some([y] + ys)
  }

  /** Elements that each give the matching value give the sequence of those values. */
  lemma {:induction false} AllSomeEach<A, B>(xs: seq<A>, f: A -> Option<B>, values: seq<B>)
    requires |xs| == |values| && forall k :: 0 <= k < |xs| ==> f(xs[k]) == Some(values[k])
    ensures AllSome(xs, f) == Some(values)
    decreases |xs|
  {
    if xs != [] {
      AllSomeEach(xs[1..], f, values[1..]);
      assert f(xs[0]) == Some(values[0]);
      assert values == [values[0]] + values[1..];
    }
  }

  /** `tuple(int(y) for y in parts)`; `None` when some part is not an integer. */
  function IntsOf(parts: seq<string>): Option<seq<int>> {
    AllSome(parts, PyInt)
  }

  /** The key `get_last_tag` sorts by. */
  function SortKey(tag: string): Option<seq<int>> {
    IntsOf(Split(AfterLastHyphen(tag), '.'))
  }

  /** Python's tuple `<`: the first differing element decides; a proper prefix is smaller. */
  predicate TupleLess(a: seq<int>, b: seq<int>)
    decreases |a|
  {
    if a == [] then b != []
    else if b == [] then false
    else a[0] < b[0] || (a[0] == b[0] && TupleLess(a[1..], b[1..]))
  }

  lemma {:induction false} TupleLessIrreflexive(a: seq<int>)
    ensures !TupleLess(a, a)
    decreases |a|
  {
    if a != [] {
      TupleLessIrreflexive(a[1..]);
    }
  }

  lemma {:induction false} TupleLessTransitive(a: seq<int>, b: seq<int>, c: seq<int>)
    requires TupleLess(a, b) && TupleLess(b, c)
    ensures TupleLess(a, c)
    decreases |a|
  {
    if a != [] && a[0] == b[0] && b[0] == c[0] {
      TupleLessTransitive(a[1..], b[1..], c[1..]);
    }
  }

  /** Distinct tuples are ordered one way or the other, and never both. */
  lemma {:induction false} TupleLessTotal(a: seq<int>, b: seq<int>)
    ensures a == b || TupleLess(a, b) || TupleLess(b, a)
    ensures !(TupleLess(a, b) && TupleLess(b, a))
    decreases |a|
  {
    if a != [] && b != [] {
      TupleLessTotal(a[1..], b[1..]);
      if a[0] == b[0] && a[1..] == b[1..] {
        assert a == [a[0]] + a[1..] && b == [b[0]] + b[1..];
      }
    }
  }

  /** The position `max` returns among `keys[..n]`: the first of the greatest keys
      (it replaces its candidate only on a strictly greater key). */
  function ArgMax(keys: seq<seq<int>>, n: nat): (r: nat)
    requires 0 < n <= |keys|
    ensures r < n
    ensures forall j :: 0 <= j < n ==> !TupleLess(keys[r], keys[j])
    ensures forall j :: 0 <= j < r ==> TupleLess(keys[j], keys[r])
    decreases n
  {
    if n == 1 then
      TupleLessIrreflexive(keys[0]);
      0
    else
      var b := ArgMax(keys, n - 1);
      if TupleLess(keys[b], keys[n - 1]) then
        assert forall j :: 0 <= j < n - 1 ==> TupleLess(keys[j], keys[n - 1]) by {
          forall j | 0 <= j < n - 1 ensures TupleLess(keys[j], keys[n - 1]) {
            TupleLessTotal(keys[j], keys[b]);
            if keys[j] != keys[b] {
              TupleLessTransitive(keys[j], keys[b], keys[n - 1]);
            }
          }
        }
        assert forall j :: 0 <= j < n ==> !TupleLess(keys[n - 1], keys[j]) by {
          forall j | 0 <= j < n ensures !TupleLess(keys[n - 1], keys[j]) {
            TupleLessTotal(keys[j], keys[n - 1]);
          }
        }
        n - 1
      else
        b
  }

  /** The keys of all the tags, or `None` when one of them has none (`max` raises then). */
  function Keys(tags: seq<string>): Option<seq<seq<int>>> {
    AllSome(tags, SortKey)
  }

  // ---------------------------------------------------------------------------
  // get_last_tag, get_new_tag, get_fmk_container
  // ---------------------------------------------------------------------------

  /** What the tags endpoint answers: 404, another failure (after which the request is
      retried and finally raised), or the list of tags. */
  datatype Response = NotFound | Failed | Tags(tags: seq<string>)

  datatype TagError =
    | TagNotFound     // TagNotFoundError
    | RequestFailed   // the request's exception, re-raised after the last retry
    | BadTagText      // ValueError from int() or from unpacking the rsplit
    | NotLastOrNew    // ValueError("get_tag must be 'last' or 'new'")

  /** `get_last_tag`: among the tags of the prefix's form, the one with the greatest key. */
  function LastTag(resp: Response, prefix: string, dots: Dots): (r: Result<string, TagError>)
    ensures r == Err(TagNotFound) <==> resp.NotFound? || (resp.Tags? && MatchingTags(resp.tags, prefix, dots) == [])
    ensures r.Ok? ==> resp.Tags? && r.value in resp.tags && MatchesTag(r.value, prefix, dots)
    ensures r.Ok? ==> SortKey(r.value).Some?
    ensures r.Ok? ==> forall x :: x in resp.tags && MatchesTag(x, prefix, dots) ==>
                        SortKey(x).Some? && !TupleLess(SortKey(r.value).value, SortKey(x).value)
  {
    match resp
    case NotFound => Err(TagNotFound)
    case Failed => Err(RequestFailed)
    case Tags(all) =>
      var tags := MatchingTags(all, prefix, dots);
      if tags == [] then Err(TagNotFound)
      else
        match Keys(tags)
        case None => Err(BadTagText)
        case Some(keys) =>
          var best := ArgMax(keys, |keys|);
          assert forall x :: x in tags ==> exists j :: 0 <= j < |tags| && tags[j] == x;
          Ok(tags[best])
  }

  /** `last_tag.replace(f"{tag_prefix}-", "").rsplit(".", 1)`, unpacked into the date and
      the sequence; `None` when there is no `.` to split at. */
  function DateAndSequence(lastTag: string, prefix: string): Option<(string, string)> {
    var rest := ReplaceAll(lastTag, prefix + "-", "");
    match LastIndex(rest, '.')
    case None => None
    case Some(k) => Some((rest[..k], rest[k + 1..]))
  }

  function TagOf(prefix: string, today: Date, sequence: int): string
    requires ValidDate(today)
  {
    prefix + "-" + FormatDate(today) + "." + IntToString(sequence)
  }

  /** `get_new_tag`: the next sequence number when the last tag is from today, `.1` when
      it is from another day or there is none. */
  function NewTag(last: Result<string, TagError>, prefix: string, today: Date): (r: Result<string, TagError>)
    requires ValidDate(today)
    ensures last == Err(TagNotFound) ==> r == Ok(TagOf(prefix, today, 1))
    ensures last.Err? && last != Err(TagNotFound) ==> r == last
    ensures r.Ok? ==> exists n :: r.value == TagOf(prefix, today, n)
  {
    match last
    case Err(TagNotFound) => Ok(TagOf(prefix, today, 1))
    case Err(e) => Err(e)
    case Ok(lastTag) =>
      match DateAndSequence(lastTag, prefix)
      case None => Err(BadTagText)
      case Some((date, sequence)) =>
        if date == FormatDate(today) then
          match PyInt(sequence)
          case None => Err(BadTagText)
          case Some(n) => Ok(TagOf(prefix, today, n + 1))
        else Ok(TagOf(prefix, today, 1))
  }

  function RegistryHost(getTag: string): string {
    if getTag == "last" then "fmk.nexus.onefiserv.net" else "fmk.nexus-ci.onefiserv.net"
  }

  function TagsEndpoint(getTag: string, repoPath: string): string {
    "https://" + RegistryHost(getTag) + "/v2/" + repoPath + "/tags/list"
  }

  /** `get_fmk_container`: `image_ref:tag` for `last` (from the pulling registry) or `new`
      (from the pushing one); any other `get_tag` is refused before the registry is asked. */
  function FmkContainer(repoPath: string, prefix: string, getTag: string, today: Date,
                        registry: string -> Response, dots: Dots): (r: Result<string, TagError>)
    requires ValidDate(today)
    ensures getTag != "last" && getTag != "new" ==> r == Err(NotLastOrNew)
    ensures r.Ok? ==> exists tag :: r.value == RegistryHost(getTag) + "/" + repoPath + ":" + tag
    ensures getTag == "last" && r.Ok? ==>
              exists tag :: r.value == RegistryHost(getTag) + "/" + repoPath + ":" + tag
                            && registry(TagsEndpoint(getTag, repoPath)).Tags?
                            && tag in registry(TagsEndpoint(getTag, repoPath)).tags && MatchesTag(tag, prefix, dots)
    ensures getTag == "new" && r.Ok? ==>
              exists n :: r.value == RegistryHost(getTag) + "/" + repoPath + ":" + TagOf(prefix, today, n)
  {
    if getTag != "last" && getTag != "new" then Err(NotLastOrNew)
    else
      var last := LastTag(registry(TagsEndpoint(getTag, repoPath)), prefix, dots);
      var tag := if getTag == "last" then last else NewTag(last, prefix, today);
      match tag
      case Err(e) => Err(e)
      case Ok(t) => Ok(RegistryHost(getTag) + "/" + repoPath + ":" + t)
  }

  // ---------------------------------------------------------------------------
  // Keys of well-formed tags
  // ---------------------------------------------------------------------------

  lemma PyIntOfDigits(s: string)
    requires s != [] && AllDigits(s)
    ensures PyInt(s) == Some(DigitsValue(s) as int)
  {
    assert Py.TrimStart(s) == s;
    assert Py.TrimEnd(s) == s;
  }

  /** `int()` ignores the newline `$` lets through. */
  lemma PyIntOfSeqField(s: string)
    requires SeqField(s)
    ensures PyInt(s) == Some(DigitsValue(SeqDigits(s)) as int)
  {
    var d := SeqDigits(s);
    assert Py.TrimStart(s) == s;
    if s[|s| - 1] == '\n' {
      assert Py.TrimEnd(s) == Py.TrimEnd(d);
    }
    assert Py.TrimEnd(d) == d;
  }

  /** The parts of a tag of the corrected form: four-digit year, two-digit month and day,
      and the sequence field. */
  predicate PartsForm(y: string, m: string, d: string, sq: string) {
    |y| == 4 && AllDigits(y) && |m| == 2 && AllDigits(m) && |d| == 2 && AllDigits(d) && SeqField(sq)
  }

  function DatePart(y: string, m: string, d: string): string { y + "." + m + "." + d }

  function Compose(prefix: string, y: string, m: string, d: string, sq: string): string {
    prefix + "-" + (DatePart(y, m, d) + "." + sq)
  }

  /** The key a tag of the corrected form has, from its parts. */
  function PartsKey(y: string, m: string, d: string, sq: string): seq<int>
    requires PartsForm(y, m, d, sq)
  {
    [DigitsValue(y) as int, DigitsValue(m) as int, DigitsValue(d) as int, DigitsValue(SeqDigits(sq)) as int]
  }

  /** A tag the corrected pattern accepts is composed of parts of that form. */
  lemma Decompose(tag: string, prefix: string)
    requires MatchesTag(tag, prefix, LiteralDot)
    ensures var r := tag[|prefix|..];
            PartsForm(r[1..5], r[6..8], r[9..11], r[12..]) && tag == Compose(prefix, r[1..5], r[6..8], r[9..11], r[12..])
  {
    var r := tag[|prefix|..];
    assert r[1..] == r[1..5] + "." + r[6..8] + "." + r[9..11] + "." + r[12..];
    assert tag == tag[..|prefix|] + r;
    assert r == "-" + r[1..];
  }

  /** ... and every such composition is accepted. */
  lemma ComposedMatches(prefix: string, y: string, m: string, d: string, sq: string)
    requires PartsForm(y, m, d, sq)
    ensures var r := Compose(prefix, y, m, d, sq)[|prefix|..];
            MatchesTag(Compose(prefix, y, m, d, sq), prefix, LiteralDot)
            && r[1..5] == y && r[6..8] == m && r[9..11] == d && r[12..] == sq
  {
    var t := Compose(prefix, y, m, d, sq);
    var r := t[|prefix|..];
    assert t[..|prefix|] == prefix;
    assert r == "-" + y + "." + m + "." + d + "." + sq;
  }

  lemma BodyWithoutHyphen(y: string, m: string, d: string, sq: string)
    requires PartsForm(y, m, d, sq)
    ensures '-' !in DatePart(y, m, d) + "." + sq
  {
    var body := DatePart(y, m, d) + "." + sq;
    assert body == y + "." + m + "." + d + "." + sq;
    assert forall i :: 0 <= i < |sq| ==> IsDigit(sq[i]) || sq[i] == '\n';
  }

  lemma AfterHyphenOfComposed(prefix: string, body: string)
    requires '-' !in body
    ensures AfterLastHyphen(prefix + "-" + body) == body
  {
    var tag := prefix + "-" + body;
    assert tag[|prefix|] == '-' && tag[|prefix| + 1..] == body;
  }

  lemma SplitParts(y: string, m: string, d: string, sq: string)
    requires PartsForm(y, m, d, sq)
    ensures Split(DatePart(y, m, d) + "." + sq, '.') == [y, m, d, sq]
  {
    assert '.' !in y && '.' !in m && '.' !in d;
    assert forall i :: 0 <= i < |sq| ==> IsDigit(sq[i]) || sq[i] == '\n';
    SplitWithoutSep(sq, '.');
    SplitFirstPart(d, sq, '.');
    assert d + "." + sq == d + ['.'] + sq;
    SplitFirstPart(m, d + "." + sq, '.');
    assert m + "." + d + "." + sq == m + ['.'] + (d + "." + sq);
    SplitFirstPart(y, m + "." + d + "." + sq, '.');
    assert DatePart(y, m, d) + "." + sq == y + ['.'] + (m + "." + d + "." + sq);
  }

  lemma IntsOfParts(y: string, m: string, d: string, sq: string)
    requires PartsForm(y, m, d, sq)
    ensures IntsOf([y, m, d, sq]) == Some(PartsKey(y, m, d, sq))
  {
    PyIntOfDigits(y);
    PyIntOfDigits(m);
    PyIntOfDigits(d);
    PyIntOfSeqField(sq);
    IntsOfFour(y, m, d, sq, DigitsValue(y) as int, DigitsValue(m) as int, DigitsValue(d) as int,
               DigitsValue(SeqDigits(sq)) as int);
  }

  lemma IntsOfFour(a: string, b: string, c: string, e: string, va: int, vb: int, vc: int, ve: int)
    requires PyInt(a) == Some(va) && PyInt(b) == Some(vb) && PyInt(c) == Some(vc) && PyInt(e) == Some(ve)
    ensures IntsOf([a, b, c, e]) == Some([va, vb, vc, ve])
  {
    var parts, values := [a, b, c, e], [va, vb, vc, ve];
    assert parts[0] == a && parts[1] == b && parts[2] == c && parts[3] == e;
    assert values[0] == va && values[1] == vb && values[2] == vc && values[3] == ve;
    AllSomeEach(parts, PyInt, values);
  }

  /** The key of a tag of the corrected form is its (year, month, day, seq), read as numbers. */
  lemma ComposedKey(prefix: string, y: string, m: string, d: string, sq: string)
    requires PartsForm(y, m, d, sq)
    ensures SortKey(Compose(prefix, y, m, d, sq)) == Some(PartsKey(y, m, d, sq))
  {
    var body := DatePart(y, m, d) + "." + sq;
    BodyWithoutHyphen(y, m, d, sq);
    AfterHyphenOfComposed(prefix, body);
    SplitParts(y, m, d, sq);
    IntsOfParts(y, m, d, sq);
  }

  /** With the corrected pattern every accepted tag has a key, so `max` never raises:
      the last tag is found exactly when some tag has the prefix's form. */
  lemma CorrectedLastTagNeverBadText(resp: Response, prefix: string)
    ensures LastTag(resp, prefix, LiteralDot) != Err(BadTagText)
    ensures resp.Tags? ==> (LastTag(resp, prefix, LiteralDot).Ok? <==> MatchingTags(resp.tags, prefix, LiteralDot) != [])
  {
    if resp.Tags? {
      var tags := MatchingTags(resp.tags, prefix, LiteralDot);
      forall k | 0 <= k < |tags| ensures SortKey(tags[k]).Some? {
        assert tags[k] in tags;
        var r := tags[k][|prefix|..];
        Decompose(tags[k], prefix);
        ComposedKey(prefix, r[1..5], r[6..8], r[9..11], r[12..]);
      }
    }
  }

  /** Sequence numbers compare as numbers, not as text: on the same day, `.10` comes after `.9`. */
  lemma SequenceComparedAsNumber(prefix: string, y: string, m: string, d: string, s1: string, s2: string)
    requires PartsForm(y, m, d, s1) && PartsForm(y, m, d, s2)
    requires DigitsValue(SeqDigits(s1)) < DigitsValue(SeqDigits(s2))
    ensures SortKey(Compose(prefix, y, m, d, s1)).Some? && SortKey(Compose(prefix, y, m, d, s2)).Some?
    ensures TupleLess(SortKey(Compose(prefix, y, m, d, s1)).value, SortKey(Compose(prefix, y, m, d, s2)).value)
  {
    ComposedKey(prefix, y, m, d, s1);
    ComposedKey(prefix, y, m, d, s2);
    SameDayKeys(y, m, d, s1, s2);
  }

  lemma SameDayKeys(y: string, m: string, d: string, s1: string, s2: string)
    requires PartsForm(y, m, d, s1) && PartsForm(y, m, d, s2)
    requires DigitsValue(SeqDigits(s1)) < DigitsValue(SeqDigits(s2))
    ensures TupleLess(PartsKey(y, m, d, s1), PartsKey(y, m, d, s2))
  {
    var date := [DigitsValue(y) as int, DigitsValue(m) as int, DigitsValue(d) as int];
    assert PartsKey(y, m, d, s1) == date + [DigitsValue(SeqDigits(s1)) as int];
    assert PartsKey(y, m, d, s2) == date + [DigitsValue(SeqDigits(s2)) as int];
    TupleLessLast(date, DigitsValue(SeqDigits(s1)), DigitsValue(SeqDigits(s2)));
  }

  // ---------------------------------------------------------------------------
  // New tags
  // ---------------------------------------------------------------------------

  /** A new tag is composed of today's date and its sequence number. */
  lemma TagOfComposed(prefix: string, today: Date, n: nat)
    requires ValidDate(today)
    ensures var f := FormatDate(today);
            PartsForm(f[..4], f[5..7], f[8..], NatToString(n))
            && TagOf(prefix, today, n) == Compose(prefix, f[..4], f[5..7], f[8..], NatToString(n))
            && PartsKey(f[..4], f[5..7], f[8..], NatToString(n)) == [today.year, today.month, today.day, n]
  {
    var f := FormatDate(today);
    var ns := NatToString(n);
    DateTextParts(f);
    assert IntToString(n) == ns;
    assert TagOf(prefix, today, n) == prefix + "-" + (f + "." + ns);
    DigitsValueOfNatToString(n);
  }

  lemma DateTextParts(f: string)
    requires DateText(f)
    ensures f == DatePart(f[..4], f[5..7], f[8..])
  {
  }

  /** A new tag has the form the filter accepts, and its key is today's date and its sequence. */
  lemma NewTagForm(prefix: string, today: Date, n: nat)
    requires ValidDate(today)
    ensures MatchesTag(TagOf(prefix, today, n), prefix, LiteralDot)
    ensures SortKey(TagOf(prefix, today, n)) == Some([today.year, today.month, today.day, n])
  {
    var f := FormatDate(today);
    TagOfComposed(prefix, today, n);
    ComposedMatches(prefix, f[..4], f[5..7], f[8..], NatToString(n));
    ComposedKey(prefix, f[..4], f[5..7], f[8..], NatToString(n));
  }

  /** The date and sequence `get_new_tag` reads from a tag of the corrected form. */
  lemma DateAndSequenceOfComposed(prefix: string, y: string, m: string, d: string, sq: string)
    requires PartsForm(y, m, d, sq)
    ensures DateAndSequence(Compose(prefix, y, m, d, sq), prefix) == Some((DatePart(y, m, d), sq))
  {
    var body := DatePart(y, m, d) + "." + sq;
    BodyWithoutHyphen(y, m, d, sq);
    PrefixRemoved(prefix, body);
    LastDotOfBody(y, m, d, sq);
  }

  /** Removing every `prefix-` from a tag whose body has no `-` leaves the body. */
  lemma PrefixRemoved(prefix: string, body: string)
    requires '-' !in body
    ensures ReplaceAll(prefix + "-" + body, prefix + "-", "") == body
  {
    var target := prefix + "-";
    var tag := target + body;
    assert tag[..|target|] == target && tag[|target|..] == body;
    NotContainsChar(body, target, '-');
    ReplaceAllAbsent(body, target, "");
  }

  lemma LastDotOfBody(y: string, m: string, d: string, sq: string)
    requires PartsForm(y, m, d, sq)
    ensures var body := DatePart(y, m, d) + "." + sq;
            LastIndex(body, '.') == Some(10) && body[..10] == DatePart(y, m, d) && body[11..] == sq
  {
    var body := DatePart(y, m, d) + "." + sq;
    assert forall i :: 0 <= i < |sq| ==> IsDigit(sq[i]) || sq[i] == '\n';
    assert body[10] == '.' && body[11..] == sq && body[..10] == DatePart(y, m, d);
  }

  /** A last tag of today gets the next sequence number; one of another day restarts at 1. */
  lemma NewTagAfter(prefix: string, y: string, m: string, d: string, sq: string, today: Date)
    requires ValidDate(today) && PartsForm(y, m, d, sq)
    ensures Date(DigitsValue(y), DigitsValue(m), DigitsValue(d)) == today ==>
              NewTag(Ok(Compose(prefix, y, m, d, sq)), prefix, today)
              == Ok(TagOf(prefix, today, DigitsValue(SeqDigits(sq)) + 1))
    ensures Date(DigitsValue(y), DigitsValue(m), DigitsValue(d)) != today ==>
              NewTag(Ok(Compose(prefix, y, m, d, sq)), prefix, today) == Ok(TagOf(prefix, today, 1))
  {
    DateAndSequenceOfComposed(prefix, y, m, d, sq);
    var f := FormatDate(today);
    var date := DatePart(y, m, d);
    assert date[..4] == y && date[5..7] == m && date[8..] == d;
    if Date(DigitsValue(y), DigitsValue(m), DigitsValue(d)) == today {
      DigitsValueInjective(y, f[..4]);
      DigitsValueInjective(m, f[5..7]);
      DigitsValueInjective(d, f[8..]);
      assert f == DatePart(f[..4], f[5..7], f[8..]);
      PyIntOfSeqField(sq);
    }
  }

  lemma {:induction false} TupleLessAppend(a: seq<int>, b: seq<int>, x: seq<int>, y: seq<int>)
    requires |a| == |b| && TupleLess(a, b)
    ensures TupleLess(a + x, b + y)
    decreases |a|
  {
    if a[0] == b[0] {
      assert (a + x)[1..] == a[1..] + x && (b + y)[1..] == b[1..] + y;
      TupleLessAppend(a[1..], b[1..], x, y);
    }
  }

  lemma {:induction false} TupleLessLast(a: seq<int>, n: int, m: int)
    requires n < m
    ensures TupleLess(a + [n], a + [m])
    decreases |a|
  {
    if a != [] {
      assert (a + [n])[1..] == a[1..] + [n] && (a + [m])[1..] == a[1..] + [m];
      TupleLessLast(a[1..], n, m);
    }
  }

  /** The date of a tag of the corrected form. */
  function TagDate(tag: string, prefix: string): Date
    requires MatchesTag(tag, prefix, LiteralDot)
  {
    var r := tag[|prefix|..];
    Date(DigitsValue(r[1..5]), DigitsValue(r[6..8]), DigitsValue(r[9..11]))
  }

  function DateKey(d: Date): seq<int> { [d.year, d.month, d.day] }

  /** The tag `get_new_tag` makes after a last tag of these parts. */
  lemma NewTagOfParts(prefix: string, y: string, m: string, d: string, sq: string, today: Date)
    requires ValidDate(today) && PartsForm(y, m, d, sq)
    ensures var last := Date(DigitsValue(y), DigitsValue(m), DigitsValue(d));
            var seqNo := if last == today then DigitsValue(SeqDigits(sq)) + 1 else 1;
            NewTag(Ok(Compose(prefix, y, m, d, sq)), prefix, today) == Ok(TagOf(prefix, today, seqNo))
  {
    NewTagAfter(prefix, y, m, d, sq, today);
  }

  /** The key of a new tag, as a date key and a sequence number. */
  lemma NewTagKey(prefix: string, today: Date, seqNo: nat)
    requires ValidDate(today)
    ensures SortKey(TagOf(prefix, today, seqNo)) == Some(DateKey(today) + [seqNo])
    ensures MatchesTag(TagOf(prefix, today, seqNo), prefix, LiteralDot)
  {
    NewTagForm(prefix, today, seqNo);
    assert [today.year, today.month, today.day, seqNo] == DateKey(today) + [seqNo];
  }

  /** `NewTagSortsAfter`, for a last tag given by its parts. */
  lemma PartsNewTagSortsAfter(prefix: string, y: string, m: string, d: string, sq: string, today: Date)
    requires ValidDate(today) && PartsForm(y, m, d, sq)
    requires var last := Date(DigitsValue(y), DigitsValue(m), DigitsValue(d));
             last == today || TupleLess(DateKey(last), DateKey(today))
    ensures NewTag(Ok(Compose(prefix, y, m, d, sq)), prefix, today).Ok?
    ensures var t := NewTag(Ok(Compose(prefix, y, m, d, sq)), prefix, today).value;
            MatchesTag(t, prefix, LiteralDot) && SortKey(t).Some? && TupleLess(PartsKey(y, m, d, sq), SortKey(t).value)
  {
    NewTagOfParts(prefix, y, m, d, sq, today);
    var last := Date(DigitsValue(y), DigitsValue(m), DigitsValue(d));
    var n := DigitsValue(SeqDigits(sq));
    assert PartsKey(y, m, d, sq) == DateKey(last) + [n];
    var seqNo := if last == today then n + 1 else 1;
    NewTagKey(prefix, today, seqNo);
    if last == today {
      TupleLessLast(DateKey(today), n, seqNo);
    } else {
      TupleLessAppend(DateKey(last), DateKey(today), [n], [seqNo]);
    }
  }

  /** Unless the last tag is dated after today, the new tag sorts after it. */
  lemma NewTagSortsAfter(lastTag: string, prefix: string, today: Date)
    requires ValidDate(today) && MatchesTag(lastTag, prefix, LiteralDot)
    requires TagDate(lastTag, prefix) == today || TupleLess(DateKey(TagDate(lastTag, prefix)), DateKey(today))
    ensures NewTag(Ok(lastTag), prefix, today).Ok?
    ensures MatchesTag(NewTag(Ok(lastTag), prefix, today).value, prefix, LiteralDot)
    ensures SortKey(lastTag).Some? && SortKey(NewTag(Ok(lastTag), prefix, today).value).Some?
    ensures TupleLess(SortKey(lastTag).value, SortKey(NewTag(Ok(lastTag), prefix, today).value).value)
  {
    var r := lastTag[|prefix|..];
    var y, m, d, sq := r[1..5], r[6..8], r[9..11], r[12..];
    Decompose(lastTag, prefix);
    ComposedKey(prefix, y, m, d, sq);
    assert TagDate(lastTag, prefix) == Date(DigitsValue(y), DigitsValue(m), DigitsValue(d));
    PartsNewTagSortsAfter(prefix, y, m, d, sq, today);
  }

  /** With the corrected pattern, unless the last tag is dated after today, the new tag sorts
      after every tag of the prefix in the registry, so it is not one of them. */
  lemma NewTagIsFresh(tags: seq<string>, prefix: string, today: Date)
    requires ValidDate(today)
    requires LastTag(Tags(tags), prefix, LiteralDot).Ok?
    requires var last := TagDate(LastTag(Tags(tags), prefix, LiteralDot).value, prefix);
             last == today || TupleLess(DateKey(last), DateKey(today))
    ensures NewTag(LastTag(Tags(tags), prefix, LiteralDot), prefix, today).Ok?
    ensures var t := NewTag(LastTag(Tags(tags), prefix, LiteralDot), prefix, today).value;
            MatchesTag(t, prefix, LiteralDot) && t !in tags
  {
    var lastTag := LastTag(Tags(tags), prefix, LiteralDot).value;
    NewTagSortsAfter(lastTag, prefix, today);
  }

  // ---------------------------------------------------------------------------
  // The unescaped dots
  // ---------------------------------------------------------------------------

  /** The written pattern's `.` accepts the `x`s of `2024x01x02x3`; the escaped one does not. */
  lemma XSeparatedMatches(prefix: string, body: string)
    requires body == "2024x01x02x3"
    ensures MatchesTag(prefix + "-" + body, prefix, AnyChar)
    ensures !MatchesTag(prefix + "-" + body, prefix, LiteralDot)
  {
    var tag := prefix + "-" + body;
    assert tag[..|prefix|] == prefix;
    var r := tag[|prefix|..];
    assert r == "-" + body;
    assert r[1..5] == "2024" && r[6..8] == "01" && r[9..11] == "02" && r[12..] == "3";
    assert r[5] == 'x';
  }

  /** `int()` raises on text that starts and ends outside white space and holds a non-digit
      after its first character. */
  lemma PyIntOfNonDigit(s: string, k: nat)
    requires 0 < k < |s| && IsDigit(s[0]) && !Py.IsSpace(s[|s| - 1]) && !IsDigit(s[k])
    ensures PyInt(s) == None
  {
    assert Py.TrimStart(s) == s;
    assert Py.TrimEnd(s) == s;
    assert !AllDigits(s);
  }

  /** A tag whose text after the hyphen has no `.` and is no integer has no key. */
  lemma UnkeyedBody(prefix: string, body: string, k: nat)
    requires '-' !in body && '.' !in body
    requires 0 < k < |body| && IsDigit(body[0]) && !Py.IsSpace(body[|body| - 1]) && !IsDigit(body[k])
    ensures SortKey(prefix + "-" + body) == None
  {
    AfterHyphenOfComposed(prefix, body);
    SplitWithoutSep(body, '.');
    PyIntOfNonDigit(body, k);
  }

  /** `int("2024x01x02x3")` raises: the x-separated tag has no key. */
  lemma XSeparatedHasNoKey(prefix: string, body: string)
    requires body == "2024x01x02x3"
    ensures SortKey(prefix + "-" + body) == None
  {
    assert '-' !in body && '.' !in body;
    assert body[0] == '2' && body[4] == 'x' && body[11] == '3';
    UnkeyedBody(prefix, body, 4);
  }

  /** A lone tag that passes the filter but has no key makes `get_last_tag` fail. */
  lemma LoneUnkeyedTag(tag: string, prefix: string, dots: Dots)
    requires MatchesTag(tag, prefix, dots) && SortKey(tag) == None
    ensures LastTag(Tags([tag]), prefix, dots) == Err(BadTagText)
  {
    assert MatchingTags([tag], prefix, dots) == [tag];
  }

  /** A lone tag the filter drops leaves no tag of the prefix. */
  lemma LoneFilteredTag(tag: string, prefix: string, dots: Dots)
    requires !MatchesTag(tag, prefix, dots)
    ensures LastTag(Tags([tag]), prefix, dots) == Err(TagNotFound)
  {
    assert MatchingTags([tag], prefix, dots) == [];
  }

  /** As written, `prefix-2024x01x02x3` passes the filter, has no key, and so makes
      `get_last_tag` fail; the corrected pattern filters it out. */
  lemma UnescapedDotsLetThroughUnkeyedTag(prefix: string)
    ensures MatchesTag(prefix + "-2024x01x02x3", prefix, AnyChar)
    ensures !MatchesTag(prefix + "-2024x01x02x3", prefix, LiteralDot)
    ensures SortKey(prefix + "-2024x01x02x3") == None
    ensures LastTag(Tags([prefix + "-2024x01x02x3"]), prefix, AnyChar) == Err(BadTagText)
    ensures LastTag(Tags([prefix + "-2024x01x02x3"]), prefix, LiteralDot) == Err(TagNotFound)
  {
    var body := "2024x01x02x3";
    var tag := prefix + "-" + body;
    assert prefix + "-2024x01x02x3" == tag;
    XSeparatedMatches(prefix, body);
    XSeparatedHasNoKey(prefix, body);
    LoneUnkeyedTag(tag, prefix, AnyChar);
    LoneFilteredTag(tag, prefix, LiteralDot);
  }
}
