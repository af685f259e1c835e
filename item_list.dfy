/** The searchable list (`ItemList`): the items whose search text starts with the
    text typed in the filter box, ignoring letter case, and that the optional
    predicate accepts, in their original order. */
module ItemList {
  import opened Wrappers
  import opened Strings

  /** Whether the optional `filter` lets `item` through; a missing filter accepts everything. */
  predicate Accepts<T>(filter: Option<T -> bool>, item: T) {
    filter.None? || filter.value(item)
  }

  /** The test `filteredItems` applies to one item. */
  predicate Kept<T>(item: T, search: string, searchText: T -> string, filter: Option<T -> bool>) {
    Lower(search) <= Lower(searchText(item)) && Accepts(filter, item)
  }

  /** `items.filter(...)`: the kept items, in order. */
  function FilteredItems<T>(items: seq<T>, search: string, searchText: T -> string, filter: Option<T -> bool>)
    : seq<T>
    decreases |items|
  {
    if items == [] then []
    else
      (if Kept(items[0], search, searchText, filter) then [items[0]] else [])
      + FilteredItems(items[1..], search, searchText, filter)
  }

  /** `a` is `b` with some elements removed, the rest in the same order. */
  ghost predicate IsSubsequence<T>(a: seq<T>, b: seq<T>)
    decreases |b|
  {
    a == [] || (b != [] && ((a[0] == b[0] && IsSubsequence(a[1..], b[1..])) || IsSubsequence(a, b[1..])))
  }

  /** The result keeps the items' order: it is a subsequence of `items`. */
  lemma {:induction false} FilteredIsSubsequence<T>(items: seq<T>, search: string, searchText: T -> string,
                                                         filter: Option<T -> bool>)
    ensures IsSubsequence(FilteredItems(items, search, searchText, filter), items)
    decreases |items|
  {
    if items != [] {
      FilteredIsSubsequence(items[1..], search, searchText, filter);
      var rest := FilteredItems(items[1..], search, searchText, filter);
      if Kept(items[0], search, searchText, filter) {
        assert FilteredItems(items, search, searchText, filter) == [items[0]] + rest;
        assert ([items[0]] + rest)[1..] == rest;
      } else {
        assert FilteredItems(items, search, searchText, filter) == rest;
      }
    }
  }

  /** An item is in the result exactly when it is one of the items and passes the test. */
  lemma {:induction false} FilteredMembership<T>(items: seq<T>, search: string, searchText: T -> string,
                                                      filter: Option<T -> bool>, x: T)
    ensures x in FilteredItems(items, search, searchText, filter) <==> x in items && Kept(x, search, searchText, filter)
    decreases |items|
  {
    if items != [] {
      FilteredMembership(items[1..], search, searchText, filter, x);
      assert items == [items[0]] + items[1..];
    }
  }

  /** With an empty search and no filter every item is listed, in order. */
  lemma {:induction false} EmptySearchKeepsAll<T>(items: seq<T>, searchText: T -> string)
    ensures FilteredItems(items, "", searchText, None) == items
    decreases |items|
  {
    if items != [] {
      EmptySearchKeepsAll(items[1..], searchText);
    }
  }

  /** With an empty search, exactly the items the filter accepts are listed. */
  lemma EmptySearchKeepsAccepted<T>(items: seq<T>, searchText: T -> string, filter: Option<T -> bool>, x: T)
    ensures x in FilteredItems(items, "", searchText, filter) <==> x in items && Accepts(filter, x)
  {
    FilteredMembership(items, "", searchText, filter, x);
  }

  /** Searches that differ only in letter case list the same items. */
  lemma {:induction false} CaseBlind<T>(items: seq<T>, a: string, b: string, searchText: T -> string,
                                        filter: Option<T -> bool>)
    requires Lower(a) == Lower(b)
    ensures FilteredItems(items, a, searchText, filter) == FilteredItems(items, b, searchText, filter)
    decreases |items|
  {
    if items != [] {
      CaseBlind(items[1..], a, b, searchText, filter);
    }
  }

  lemma LowerAppend(a: string, b: string)
    ensures Lower(a + b) == Lower(a) + Lower(b)
  {
  }

  /** Typing more characters never brings an item back: the longer search lists a
      subsequence of what the shorter one lists. */
  lemma {:induction false} NarrowingSearch<T>(items: seq<T>, search: string, more: string,
                                                  searchText: T -> string, filter: Option<T -> bool>)
    ensures IsSubsequence(FilteredItems(items, search + more, searchText, filter),
                          FilteredItems(items, search, searchText, filter))
    decreases |items|
  {
    if items != [] {
      NarrowingSearch(items[1..], search, more, searchText, filter);
      var longer := FilteredItems(items[1..], search + more, searchText, filter);
      var shorter := FilteredItems(items[1..], search, searchText, filter);
      var x := items[0];
      LowerAppend(search, more);
      if Kept(x, search + more, searchText, filter) {
        assert Kept(x, search, searchText, filter);
        assert FilteredItems(items, search + more, searchText, filter) == [x] + longer;
        assert FilteredItems(items, search, searchText, filter) == [x] + shorter;
        assert ([x] + longer)[1..] == longer;
        assert ([x] + shorter)[1..] == shorter;
      } else if Kept(x, search, searchText, filter) {
        assert FilteredItems(items, search + more, searchText, filter) == longer;
        assert FilteredItems(items, search, searchText, filter) == [x] + shorter;
        SubsequenceOfTail(longer, shorter, x);
      } else {
        assert FilteredItems(items, search + more, searchText, filter) == longer;
        assert FilteredItems(items, search, searchText, filter) == shorter;
      }
    }
  }

  /** A subsequence of `b` is a subsequence of `[x] + b`. */
  lemma {:induction false} SubsequenceOfTail<T>(a: seq<T>, b: seq<T>, x: T)
    requires IsSubsequence(a, b)
    ensures IsSubsequence(a, [x] + b)
  {
    assert ([x] + b)[1..] == b;
  }
}
