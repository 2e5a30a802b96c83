/** The selection helpers of the MultiSelect component (src/components/MultiSelect.tsx): toggling
    an item in the local selection, the case-insensitive search over the items, the ordering
    that lists the selected items first, and the text shown in the closed field. Items are
    compared by id only. The component state they read (the local selection, the search term)
    and its props (`isSingleSelect`, `maxDisplay`, `placeholder`) are parameters here. */
module MultiSelect {
  import opened Common
  import Lists

  /** `{ id, name, data? }`; `data` is carried along by the component but never read. */
  datatype Item = Item(id: string, name: string)

  function ItemId(it: Item): string {
    it.id
  }

  /** `localSelectedItems.some(selected => selected.id === item.id)` */
  predicate IsSelected(selection: seq<Item>, item: Item) {
    Lists.HasId(selection, ItemId, item.id)
  }

  /** `handleToggleItem`: a single-select field replaces the selection by the item; otherwise an
      item whose id is selected is removed together with every entry carrying that id, and any
      other item is appended. */
  function ToggleItem(selection: seq<Item>, item: Item, isSingleSelect: bool): (r: seq<Item>)
    ensures isSingleSelect ==> r == [item]
    ensures !isSingleSelect && !IsSelected(selection, item) ==> r == selection + [item]
    ensures !isSingleSelect && IsSelected(selection, item) ==>
      !IsSelected(r, item) && |r| < |selection| && forall x :: x in r ==> x in selection
  {
    if isSingleSelect then [item]
    else if IsSelected(selection, item) then
      LengthOfRemove(selection, item.id);
      Lists.RemoveById(selection, ItemId, item.id)
    else selection + [item]
  }

  /** Removing a present id makes the list strictly shorter. */
  lemma {:induction false} LengthOfRemove(xs: seq<Item>, id: string)
    ensures Lists.HasId(xs, ItemId, id) ==> |Lists.RemoveById(xs, ItemId, id)| < |xs|
    decreases |xs|
  {
    var keep := y => ItemId(y) != id;
    if xs != [] && Lists.HasId(xs, ItemId, id) {
      assert xs == [xs[0]] + xs[1..];
      Lists.FilterConcat([xs[0]], xs[1..], keep);
      if xs[0].id != id {
        var i :| 0 <= i < |xs| && ItemId(xs[i]) == id;
        assert ItemId(xs[1..][i - 1]) == id;
        LengthOfRemove(xs[1..], id);
      }
    }
  }

  /** Toggling a new item in a multi-select field and then toggling it again gives back the
      selection it started from. */
  lemma ToggleTwiceRestores(selection: seq<Item>, item: Item)
    requires !IsSelected(selection, item)
    ensures ToggleItem(ToggleItem(selection, item, false), item, false) == selection
  {
    var once := selection + [item];
    assert once[|selection|] == item;
    assert IsSelected(once, item);
    Lists.RemoveAppended(selection, ItemId, item);
  }

  /** In a multi-select field toggling one item never changes whether an item with another id
      is selected. */
  lemma ToggleKeepsOthers(selection: seq<Item>, item: Item, other: Item)
    requires other.id != item.id
    ensures IsSelected(ToggleItem(selection, item, false), other) <==> IsSelected(selection, other)
  {
    if IsSelected(selection, item) {
      Lists.RemoveByIdKeepsOtherIds(selection, ItemId, item.id, other.id);
    } else {
      var r := selection + [item];
      if IsSelected(r, other) {
        var i :| 0 <= i < |r| && ItemId(r[i]) == other.id;
        assert i < |selection| && selection[i] == r[i];
      }
      if IsSelected(selection, other) {
        var i :| 0 <= i < |selection| && ItemId(selection[i]) == other.id;
        assert r[i] == selection[i];
      }
    }
  }

  /** In a multi-select field the toggled item is selected afterwards exactly when it was not
      selected before. */
  lemma ToggleFlipsItem(selection: seq<Item>, item: Item)
    ensures IsSelected(ToggleItem(selection, item, false), item) <==> !IsSelected(selection, item)
  {
    if !IsSelected(selection, item) {
      assert (selection + [item])[|selection|] == item;
    }
  }

  /** `String.prototype.toLowerCase` on the ASCII letters; every other character is kept. */
  function LowerChar(c: char): (l: char)
    ensures 'A' <= c <= 'Z' ==> 'a' <= l <= 'z' && l as int - c as int == 32
    ensures !('A' <= c <= 'Z') ==> l == c
  {
    if 'A' <= c <= 'Z' then (c as int + 32) as char else c
  }

  function Lower(s: string): (r: string)
    ensures |r| == |s|
    ensures forall i :: 0 <= i < |s| ==> r[i] == LowerChar(s[i])
  {
    seq(|s|, i requires 0 <= i < |s| => LowerChar(s[i]))
  }

  /** Lower-casing twice is lower-casing once. */
  lemma LowerIdempotent(s: string)
    ensures Lower(Lower(s)) == Lower(s)
  {
    var l := Lower(s);
    forall i | 0 <= i < |s|
      ensures Lower(l)[i] == l[i]
    {
      assert !('A' <= l[i] <= 'Z');
    }
  }

  /** `s` begins with `p`. */
  predicate StartsWith(s: string, p: string) {
    |p| <= |s| && s[..|p|] == p
  }

  /** `s.includes(sub)`: `sub` occurs in `s` at some position. */
  predicate Includes(s: string, sub: string)
    decreases |s|
  {
    StartsWith(s, sub) || (|s| > 0 && Includes(s[1..], sub))
  }

  /** `includes` finds `sub` exactly when some window of `s` equals it. */
  lemma {:induction false} IncludesAt(s: string, sub: string)
    ensures Includes(s, sub) <==> exists i :: 0 <= i <= |s| - |sub| && StartsWith(s[i..], sub)
    decreases |s|
  {
    if |s| > 0 {
      IncludesAt(s[1..], sub);
      if exists i :: 0 <= i <= |s| - |sub| && StartsWith(s[i..], sub) {
        var i :| 0 <= i <= |s| - |sub| && StartsWith(s[i..], sub);
        if i > 0 {
          assert s[1..][i - 1..] == s[i..];
          assert Includes(s[1..], sub);
        } else {
          assert s[i..] == s;
        }
      }
      if StartsWith(s, sub) {
        assert s[0..] == s;
      }
      if Includes(s[1..], sub) {
        var i :| 0 <= i <= |s[1..]| - |sub| && StartsWith(s[1..][i..], sub);
        assert s[1..][i..] == s[i + 1..];
        assert StartsWith(s[i + 1..], sub);
      }
    } else {
      if exists i :: 0 <= i <= |s| - |sub| && StartsWith(s[i..], sub) {
        var i :| 0 <= i <= |s| - |sub| && StartsWith(s[i..], sub);
        assert i == 0 && s[i..] == s;
      }
      if Includes(s, sub) {
        assert StartsWith(s[0..], sub);
      }
    }
  }

  /** The search test of one item: its lower-cased name contains the lower-cased term. */
  predicate Matches(item: Item, searchTerm: string) {
    Includes(Lower(item.name), Lower(searchTerm))
  }

  /** `filteredItems` */
  function FilteredItems(items: seq<Item>, searchTerm: string): (r: seq<Item>)
    ensures forall i :: 0 <= i < |r| ==> Matches(r[i], searchTerm) && r[i] in items
    ensures forall i :: 0 <= i < |items| && Matches(items[i], searchTerm) ==> items[i] in r
  {
    Lists.Filter(items, it => Matches(it, searchTerm))
  }

  /** The search keeps the items in their order; an empty term keeps every item. */
  lemma FilteredItemsIsSubsequence(items: seq<Item>, searchTerm: string)
    ensures Lists.IsSubsequence(FilteredItems(items, searchTerm), items)
    ensures searchTerm == "" ==> FilteredItems(items, searchTerm) == items
  {
    Lists.FilterIsSubsequence(items, it => Matches(it, searchTerm));
    if searchTerm == "" {
      forall i | 0 <= i < |items|
        ensures Matches(items[i], searchTerm)
      {
        assert StartsWith(Lower(items[i].name), Lower(searchTerm));
      }
      Lists.FilterKeepsAll(items, it => Matches(it, searchTerm));
    }
  }

  /** The search ignores the case of the term: a term and its lower-cased form find the same
      items. */
  lemma SearchIgnoresTermCase(items: seq<Item>, searchTerm: string)
    ensures FilteredItems(items, Lower(searchTerm)) == FilteredItems(items, searchTerm)
  {
    LowerIdempotent(searchTerm);
    assert forall it :: Matches(it, Lower(searchTerm)) == Matches(it, searchTerm);
    FiltersAgree(items, it => Matches(it, Lower(searchTerm)), it => Matches(it, searchTerm));
  }

  /** Two tests that agree everywhere filter alike. */
  lemma {:induction false} FiltersAgree(xs: seq<Item>, p: Item -> bool, q: Item -> bool)
    requires forall x :: p(x) == q(x)
    ensures Lists.Filter(xs, p) == Lists.Filter(xs, q)
    decreases |xs|
  {
    if xs != [] {
      FiltersAgree(xs[1..], p, q);
    }
  }

  /** `selectedItemsOnTop`: the filtered items that are selected, then those that are not. */
  function SelectedOnTop(filtered: seq<Item>, selection: seq<Item>): (r: seq<Item>)
    ensures |r| == |filtered|
  {
    var top := Lists.Filter(filtered, it => IsSelected(selection, it));
    var rest := Lists.Filter(filtered, it => !IsSelected(selection, it));
    Lists.FilterPartition(filtered, it => IsSelected(selection, it), it => !IsSelected(selection, it));
    assert |multiset(top + rest)| == |multiset(filtered)|;
    top + rest
  }

  /** The ordering is a permutation of the filtered items in which every selected item comes
      before every unselected one, and each group keeps the items' own order. */
  lemma SelectedOnTopIsPartition(filtered: seq<Item>, selection: seq<Item>)
    ensures var r := SelectedOnTop(filtered, selection);
      var k := |Lists.Filter(filtered, it => IsSelected(selection, it))|;
      && multiset(r) == multiset(filtered)
      && k <= |r|
      && (forall i :: 0 <= i < k ==> IsSelected(selection, r[i]))
      && (forall i :: k <= i < |r| ==> !IsSelected(selection, r[i]))
      && Lists.IsSubsequence(r[..k], filtered)
      && Lists.IsSubsequence(r[k..], filtered)
  {
    var top := Lists.Filter(filtered, it => IsSelected(selection, it));
    var rest := Lists.Filter(filtered, it => !IsSelected(selection, it));
    var r := SelectedOnTop(filtered, selection);
    Lists.FilterPartition(filtered, it => IsSelected(selection, it), it => !IsSelected(selection, it));
    assert r == top + rest;
    assert r[..|top|] == top && r[|top|..] == rest;
    Lists.FilterIsSubsequence(filtered, it => IsSelected(selection, it));
    Lists.FilterIsSubsequence(filtered, it => !IsSelected(selection, it));
    forall i | |top| <= i < |r|
      ensures !IsSelected(selection, r[i])
    {
      assert r[i] == rest[i - |top|];
    }
  }

  /** `selectedNames` */
  function Names(selection: seq<Item>): (names: seq<string>)
    ensures |names| == |selection|
    ensures forall i :: 0 <= i < |selection| ==> names[i] == selection[i].name
  {
    seq(|selection|, i requires 0 <= i < |selection| => selection[i].name)
  }

  /** `xs.join(sep)` */
  function Join(xs: seq<string>, sep: string): string
    decreases |xs|
  {
    if |xs| == 0 then ""
    else if |xs| == 1 then xs[0]
    else xs[0] + sep + Join(xs[1..], sep)
  }

  /** Joining a prefix of the names gives a prefix of the joined text. */
  lemma {:induction false} JoinPrefix(xs: seq<string>, sep: string, k: nat)
    requires k <= |xs|
    ensures Join(xs[..k], sep) <= Join(xs, sep)
    decreases k
  {
    if k == |xs| {
      assert xs[..k] == xs;
    } else if k == 1 {
      assert xs[..k] == [xs[0]];
    } else if k > 1 {
      assert xs[..k][1..] == xs[1..][..k - 1];
      JoinPrefix(xs[1..], sep, k - 1);
    }
  }

  /** The `end` index `slice(0, end)` stops at: a negative end counts from the back, and the
      result is clamped to the length. */
  function SliceEnd(length: nat, end: int): (e: nat)
    ensures e <= length
    ensures 0 <= end <= length ==> e == end
    ensures end < 0 ==> e == if length + end < 0 then 0 else length + end
  {
    if end < 0 then (if length + end < 0 then 0 else length + end)
    else if end > length then length
    else end
  }

  /** `displayNames` */
  function DisplayNames(selection: seq<Item>, maxDisplay: int): string {
    var names := Names(selection);
    if |names| > maxDisplay then Join(names[..SliceEnd(|names|, maxDisplay)], ", ") + "..."
    else Join(names, ", ")
  }

  /** At most `maxDisplay` selected items are all listed; beyond that the first `maxDisplay`
      names are listed, followed by '...', and that text starts like the full list. */
  lemma DisplayNamesTruncates(selection: seq<Item>, maxDisplay: int)
    ensures |selection| <= maxDisplay ==> DisplayNames(selection, maxDisplay) == Join(Names(selection), ", ")
    ensures 0 <= maxDisplay < |selection| ==>
      var shown := Join(Names(selection)[..maxDisplay], ", ");
      DisplayNames(selection, maxDisplay) == shown + "..." && shown <= Join(Names(selection), ", ")
  {
    if 0 <= maxDisplay < |selection| {
      JoinPrefix(Names(selection), ", ", maxDisplay);
    }
  }

  /** With the default `maxDisplay` of 2, three names show as the first two and '...'. */
  lemma DefaultDisplayOfThree(a: Item, b: Item, c: Item)
    ensures DisplayNames([a, b, c], 2) == a.name + ", " + b.name + "..."
  {
    var shown := [a.name, b.name];
    assert Names([a, b, c])[..2] == shown;
    assert shown[1..] == [b.name];
    assert Join(shown, ", ") == a.name + ", " + b.name;
  }

  /** An empty selection shows nothing when `maxDisplay` is not negative, but a negative
      `maxDisplay` shows '...' even then. */
  lemma EmptySelectionDisplay(maxDisplay: int)
    ensures maxDisplay >= 0 ==> DisplayNames([], maxDisplay) == ""
    ensures maxDisplay < 0 ==> DisplayNames([], maxDisplay) == "..."
  {
    assert Names([]) == [];
  }

  /** `displayNames || placeholder || "Select"`: an empty string falls through like a missing
      placeholder. */
  function FieldLabel(displayNames: string, placeholder: Option<string>): (text: string)
    ensures text != ""
    ensures displayNames != "" ==> text == displayNames
    ensures displayNames == "" && placeholder.Some? && placeholder.value != "" ==> text == placeholder.value
    ensures displayNames == "" && (placeholder.None? || placeholder.value == "") ==> text == "Select"
  {
    if displayNames != "" then displayNames
    else if placeholder.Some? && placeholder.value != "" then placeholder.value
    else "Select"
  }

  /** With nothing selected the field shows the placeholder, or 'Select' when there is none;
      with something selected it shows the names. */
  lemma LabelOfSelection(selection: seq<Item>, maxDisplay: int, placeholder: Option<string>)
    ensures selection == [] && maxDisplay >= 0 ==>
      FieldLabel(DisplayNames(selection, maxDisplay), placeholder) == placeholder.GetOr("") ||
      FieldLabel(DisplayNames(selection, maxDisplay), placeholder) == "Select"
    ensures selection == [] && maxDisplay >= 0 && placeholder.Some? && placeholder.value != "" ==>
      FieldLabel(DisplayNames(selection, maxDisplay), placeholder) == placeholder.value
    ensures selection != [] && selection[0].name != "" ==>
      FieldLabel(DisplayNames(selection, maxDisplay), placeholder) == DisplayNames(selection, maxDisplay)
  {
    EmptySelectionDisplay(maxDisplay);
    if selection != [] && selection[0].name != "" {
      var names := Names(selection);
      if |names| > maxDisplay {
        assert DisplayNames(selection, maxDisplay) != "";
      } else {
        JoinNonEmpty(names, ", ");
      }
    }
  }

  /** A join whose first element is non-empty is non-empty. */
  lemma JoinNonEmpty(xs: seq<string>, sep: string)
    requires |xs| > 0 && xs[0] != ""
    ensures Join(xs, sep) != ""
  {
    if |xs| > 1 {
      assert |Join(xs, sep)| >= |xs[0]|;
    }
  }
}
