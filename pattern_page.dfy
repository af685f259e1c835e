/** The pattern management page (`pe/Pattern`): the pattern list from the API is
    grouped by group name for display, and the create and description dialogs
    refuse to send anything while a required field is empty. */
module PatternPage {
  import opened Wrappers
  import Models
  import opened JsValues

  /** One entry of `GET /api/pattern`. */
  datatype Listed = Listed(id: int, group: string, groupDescription: string, description: string,
                           version: int, deprecated: bool)

  /** The grouped list: group names in the order they were first met, and each group's
      patterns. */
  datatype Groups = Groups(order: seq<string>, members: map<string, seq<Listed>>)

  // ---------------------------------------------------------------------------
  // Grouping by own keys
  // ---------------------------------------------------------------------------

  /** One step of the `reduce`, on a dictionary that holds only its own keys. */
  function AddTo(g: Groups, p: Listed): Groups {
    if p.group in g.members then Groups(g.order, g.members[p.group := g.members[p.group] + [p]])
    else Groups(g.order + [p.group], g.members[p.group := [p]])
  }

  /** The grouping of `ps`, one pattern at a time. */
  function Grouping(ps: seq<Listed>): Groups
    decreases |ps|
  {
    if ps == [] then Groups([], map[]) else AddTo(Grouping(ps[..|ps| - 1]), ps[|ps| - 1])
  }

  /** The patterns of group `name`, in the order the API listed them. */
  function InGroup(ps: seq<Listed>, name: string): seq<Listed>
    decreases |ps|
  {
    if ps == [] then []
    else InGroup(ps[..|ps| - 1], name) + (if ps[|ps| - 1].group == name then [ps[|ps| - 1]] else [])
  }

  predicate Distinct(s: seq<string>) {
    forall a, b :: 0 <= a < b < |s| ==> s[a] != s[b]
  }

  /** The groups are exactly the names the patterns carry. */
  lemma {:induction false} GroupingKeys(ps: seq<Listed>)
    ensures Grouping(ps).members.Keys == set k | 0 <= k < |ps| :: ps[k].group
    decreases |ps|
  {
    if ps != [] {
      var init := ps[..|ps| - 1];
      GroupingKeys(init);
      assert forall k :: 0 <= k < |init| ==> init[k] == ps[k];
    }
  }

  /** Each group name is listed once, and the listed names are the groups. */
  lemma {:induction false} GroupingOrder(ps: seq<Listed>)
    ensures var g := Grouping(ps);
      (set k | 0 <= k < |g.order| :: g.order[k]) == g.members.Keys && Distinct(g.order)
    decreases |ps|
  {
    if ps != [] {
      var init, p := ps[..|ps| - 1], ps[|ps| - 1];
      GroupingOrder(init);
      var g := Grouping(init);
      if p.group !in g.members {
        var order := g.order + [p.group];
        var keys := Grouping(ps).members.Keys;
        assert keys == g.members.Keys + {p.group};
        forall x | x in keys ensures exists k :: 0 <= k < |order| && order[k] == x {
          if x == p.group {
            assert order[|g.order|] == x;
          } else {
            var k :| 0 <= k < |g.order| && g.order[k] == x;
            assert order[k] == x;
          }
        }
        assert (set k | 0 <= k < |order| :: order[k]) == keys;
      }
    }
  }

  /** Every group holds exactly the patterns of its name, in their API order. */
  lemma {:induction false} GroupingMembers(ps: seq<Listed>, name: string)
    requires name in Grouping(ps).members
    ensures Grouping(ps).members[name] == InGroup(ps, name)
    decreases |ps|
  {
    if ps != [] {
      var init, p := ps[..|ps| - 1], ps[|ps| - 1];
      var g := Grouping(init);
      if name in g.members {
        GroupingMembers(init, name);
      } else {
        assert name == p.group;
        GroupingKeys(init);
        assert forall k :: 0 <= k < |init| ==> init[k].group != name;
        InGroupAbsent(init, name);
      }
    }
  }

  /** A group name that is not carried by any pattern has no patterns. */
  lemma {:induction false} InGroupAbsent(ps: seq<Listed>, name: string)
    requires forall k :: 0 <= k < |ps| ==> ps[k].group != name
    ensures InGroup(ps, name) == []
    decreases |ps|
  {
    if ps != [] {
      InGroupAbsent(ps[..|ps| - 1], name);
    }
  }

  /** The pattern at `k` is in the group of its name. */
  lemma {:induction false} InGroupHas(ps: seq<Listed>, k: nat)
    requires k < |ps|
    ensures ps[k] in InGroup(ps, ps[k].group)
    decreases |ps|
  {
    if k < |ps| - 1 {
      InGroupHas(ps[..|ps| - 1], k);
    }
  }

  /** No group is empty. */
  lemma GroupsNonEmpty(ps: seq<Listed>, name: string)
    requires name in Grouping(ps).members
    ensures Grouping(ps).members[name] != []
  {
    GroupingKeys(ps);
    GroupingMembers(ps, name);
    var k :| 0 <= k < |ps| && ps[k].group == name;
    InGroupHas(ps, k);
  }

  /** The sum of the sizes of the groups `order` lists. */
  function Total(order: seq<string>, members: map<string, seq<Listed>>): nat
    requires forall k :: 0 <= k < |order| ==> order[k] in members
    decreases |order|
  {
    if order == [] then 0 else |members[order[0]]| + Total(order[1..], members)
  }

  lemma {:induction false} TotalAppend(order: seq<string>, members: map<string, seq<Listed>>, name: string)
    requires forall k :: 0 <= k < |order| ==> order[k] in members
    requires name in members
    ensures Total(order + [name], members) == Total(order, members) + |members[name]|
    decreases |order|
  {
    if order != [] {
      assert (order + [name])[1..] == order[1..] + [name];
      TotalAppend(order[1..], members, name);
    }
  }

  /** Changing a group that is not listed leaves the total alone. */
  lemma {:induction false} TotalUnlisted(order: seq<string>, members: map<string, seq<Listed>>, name: string,
                                         v: seq<Listed>)
    requires forall k :: 0 <= k < |order| ==> order[k] in members
    requires name !in order
    ensures Total(order, members[name := v]) == Total(order, members)
    decreases |order|
  {
    if order != [] {
      TotalUnlisted(order[1..], members, name, v);
    }
  }

  /** Adding one pattern to a listed group adds one to the total. */
  lemma {:induction false} TotalBump(order: seq<string>, members: map<string, seq<Listed>>, name: string,
                                     v: seq<Listed>)
    requires forall k :: 0 <= k < |order| ==> order[k] in members
    requires Distinct(order) && name in order && name in members && |v| == |members[name]| + 1
    ensures Total(order, members[name := v]) == Total(order, members) + 1
    decreases |order|
  {
    if order[0] == name {
      assert name !in order[1..];
      TotalUnlisted(order[1..], members, name, v);
    } else {
      TotalBump(order[1..], members, name, v);
    }
  }

  /** Every pattern is shown exactly once: the group sizes add up to the number of patterns. */
  lemma {:induction false} GroupSizesSum(ps: seq<Listed>)
    ensures forall k :: 0 <= k < |Grouping(ps).order| ==> Grouping(ps).order[k] in Grouping(ps).members
    ensures Total(Grouping(ps).order, Grouping(ps).members) == |ps|
    decreases |ps|
  {
    GroupingOrder(ps);
    if ps != [] {
      var init, p := ps[..|ps| - 1], ps[|ps| - 1];
      GroupSizesSum(init);
      GroupingOrder(init);
      var g := Grouping(init);
      if p.group in g.members {
        TotalBump(g.order, g.members, p.group, g.members[p.group] + [p]);
      } else {
        assert p.group !in g.order;
        TotalUnlisted(g.order, g.members, p.group, [p]);
        TotalAppend(g.order, g.members[p.group := [p]], p.group);
      }
    }
  }

  // ---------------------------------------------------------------------------
  // The `reduce` as written: `acc` is a plain object
  // ---------------------------------------------------------------------------

  /** The only error the `reduce` can raise: `acc[name].push` on an inherited member. */
  datatype ListError = PushNotAFunction(name: string)

  /** `patterns.reduce(...)` with `acc` a plain object: for an inherited name `!acc[name]`
      is false, so no array is created, and `push` is called on the inherited member. */
  function ReduceAsWritten(ps: seq<Listed>): Result<Groups, ListError>
    decreases |ps|
  {
    if ps == [] then Ok(Groups([], map[]))
    else match ReduceAsWritten(ps[..|ps| - 1])
      case Err(e) => Err(e)
      case Ok(g) =>
        var p := ps[|ps| - 1];
        if p.group in InheritedNames then Err(PushNotAFunction(p.group)) else Ok(AddTo(g, p))
  }

  /** The `reduce` succeeds exactly when no pattern's group is an inherited name, and then
      it is the grouping by own keys. */
  lemma {:induction false} AsWrittenIff(ps: seq<Listed>)
    ensures ReduceAsWritten(ps).Ok? <==> forall k :: 0 <= k < |ps| ==> ps[k].group !in InheritedNames
    ensures ReduceAsWritten(ps).Ok? ==> ReduceAsWritten(ps).value == Grouping(ps)
    decreases |ps|
  {
    if ps != [] {
      var init := ps[..|ps| - 1];
      AsWrittenIff(init);
      assert forall k :: 0 <= k < |init| ==> init[k] == ps[k];
    }
  }

  /** `constructor` is a valid group name, and one pattern in that group makes the
      listing fail, so the page shows no patterns at all. */
  lemma ConstructorGroupBreaksListing(p: Listed)
    requires p.group == "constructor"
    ensures Models.GroupNameValid(p.group)
    ensures ReduceAsWritten([p]) == Err(PushNotAFunction("constructor"))
  {
    ConstructorIsValidName(p.group);
    assert [p][..0] == [];
  }

  lemma ConstructorIsValidName(name: string)
    requires name == "constructor"
    ensures Models.GroupNameValid(name)
  {
    Models.GroupNamePatternIff(name);
    assert forall k :: 0 <= k < |name| ==> Models.IsNameChar(name[k]);
  }

  /** The listing's loop: `getPatterns`' `reduce`, building the object in place. */
  method GroupPatterns(ps: seq<Listed>) returns (r: Result<Groups, ListError>)
    ensures r == ReduceAsWritten(ps)
  {
    var order: seq<string> := [];
    var members: map<string, seq<Listed>> := map[];
    var i := 0;
    while i < |ps|
      invariant 0 <= i <= |ps|
      invariant ReduceAsWritten(ps[..i]) == Ok(Groups(order, members))
    {
      var p := ps[i];
      assert ps[..i + 1][..i] == ps[..i];
      if p.group in InheritedNames {
        assert ReduceAsWritten(ps[..i + 1]).Err?;
        ReduceStops(ps, i + 1);
        return Err(PushNotAFunction(p.group));
      }
      ghost var next := AddTo(Groups(order, members), p);
      assert ReduceAsWritten(ps[..i + 1]) == Ok(next);
      if p.group !in members {
        order := order + [p.group];
        members := members[p.group := []];
      }
      assert [] + [p] == [p];
      members := members[p.group := members[p.group] + [p]];
      assert Groups(order, members) == next;
      i := i + 1;
    }
    assert ps[..|ps|] == ps;
    r := Ok(Groups(order, members));
  }

  /** Once the `reduce` has thrown, later patterns do not matter. */
  lemma {:induction false} ReduceStops(ps: seq<Listed>, n: nat)
    requires n <= |ps| && ReduceAsWritten(ps[..n]).Err?
    ensures ReduceAsWritten(ps) == ReduceAsWritten(ps[..n])
    decreases |ps| - n
  {
    if n < |ps| {
      assert ps[..n + 1][..n] == ps[..n];
      ReduceStops(ps, n + 1);
    } else {
      assert ps[..n] == ps;
    }
  }

  // ---------------------------------------------------------------------------
  // The page's state and its guards
  // ---------------------------------------------------------------------------

  /** The requests the page sends. */
  datatype Request = CreateGroup(name: string, description: string) | EditGroup(name: string, description: string)

  class Page {
    var patterns: Groups
    var name: string
    var description: string
    var editPatternGroup: string
    var editDescription: string
    var missingFields: bool
    /** Requests sent so far, oldest first. */
    var sent: seq<Request>

    constructor ()
      ensures patterns == Groups([], map[]) && name == "" && description == ""
      ensures editPatternGroup == "" && editDescription == "" && !missingFields && sent == []
    {
      patterns := Groups([], map[]);
      name := "";
      description := "";
      editPatternGroup := "";
      editDescription := "";
      missingFields := false;
      sent := [];
    }

    /** `getPatterns` with the list the API returned: the grouping replaces the shown
        patterns, unless the `reduce` threw, which is only logged. */
    method Refresh(ps: seq<Listed>)
      modifies this
      ensures patterns == (if ReduceAsWritten(ps).Ok? then ReduceAsWritten(ps).value else old(patterns))
      ensures name == old(name) && description == old(description) && missingFields == old(missingFields)
      ensures editPatternGroup == old(editPatternGroup) && editDescription == old(editDescription)
      ensures sent == old(sent)
    {
      var r := GroupPatterns(ps);
      if r.Ok? {
        patterns := r.value;
      }
    }

    /** `createPattern(version)`: a new pattern needs both fields; a new version of an
        existing one does not. */
    method CreatePattern(version: bool)
      modifies this
      ensures !version && (old(name) == "" || old(description) == "") ==>
        missingFields && sent == old(sent)
      ensures version || (old(name) != "" && old(description) != "") ==>
        !missingFields && sent == old(sent) + [CreateGroup(old(name), old(description))]
      ensures patterns == old(patterns) && name == old(name) && description == old(description)
      ensures editPatternGroup == old(editPatternGroup) && editDescription == old(editDescription)
    {
      if !version && (name == "" || description == "") {
        missingFields := true;
        return;
      }
      missingFields := false;
      sent := sent + [CreateGroup(name, description)];
    }

    /** `saveDescription`: a blank description is not sent. */
    method SaveDescription()
      modifies this
      ensures old(editDescription) == "" ==> sent == old(sent)
      ensures old(editDescription) != "" ==> sent == old(sent) + [EditGroup(old(editPatternGroup), old(editDescription))]
      ensures patterns == old(patterns) && name == old(name) && description == old(description)
      ensures editPatternGroup == old(editPatternGroup) && editDescription == old(editDescription)
      ensures missingFields == old(missingFields)
    {
      if editDescription == "" {
        return;
      }
      sent := sent + [EditGroup(editPatternGroup, editDescription)];
    }
  }
}
