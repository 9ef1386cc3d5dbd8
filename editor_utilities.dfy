/**
  The helpers of static/js/node-red-openhab-v2-utilities.js that the node
  editors use around the item list: `truncateWithEllipses`, `sortBy` (which
  sorts the array it is given in place) and the item filter that turns the
  sorted item list into the options of the item selector.
*/
module EditorUtilities {
  import opened Wrappers
  import opened JsValues

  // ---------------------------------------------------------------------------
  // truncateWithEllipses
  // ---------------------------------------------------------------------------

  const DefaultMax: int := 30
  const Ellipsis: string := "&hellip;"

  /** `truncateWithEllipses(text, max)` as written: falsy text comes back
      unchanged; a string keeps its first `max - 1` characters, followed by
      the ellipsis entity when it is longer than `max`; any other value has
      no `substr` and throws. */
  function Truncate(text: JsValue, max: int): (r: Result<JsValue, JsError>)
    ensures !Truthy(text) ==> r == Ok(text)
    ensures Truthy(text) && !text.Str? ==> r == Err(TypeError)
    ensures text.Str? ==> r.Ok? && r.value.Str?
  {
    if !Truthy(text) then Ok(text)
    else
      match text
      case Str(s) => Ok(Str(Prefix(s, max - 1) + (if |s| > max then Ellipsis else "")))
      case _ => Err(TypeError)
  }

  /** A text longer than `max` keeps `max - 1` characters and gains the
      ellipsis. */
  lemma LongTextTruncated(s: string, max: int)
    requires 1 <= max < |s|
    ensures Truncate(Str(s), max) == Ok(Str(s[..max - 1] + Ellipsis))
  {
  }

  /** A text shorter than `max` is kept whole. */
  lemma ShortTextKept(s: string, max: int)
    requires 0 < |s| < max
    ensures Truncate(Str(s), max) == Ok(Str(s))
  {
    assert Prefix(s, max - 1) == s[..|s|] == s;
    assert s + "" == s;
  }

  /** As written, a text of exactly `max` characters loses its last character
      and gets no ellipsis, although it fits. */
  lemma ExactLengthLosesLastChar(s: string)
    requires |s| == DefaultMax
    ensures Truncate(Str(s), DefaultMax) == Ok(Str(s[..DefaultMax - 1]))
    ensures Truncate(Str(s), DefaultMax) != Ok(Str(s))
  {
    assert Prefix(s, DefaultMax - 1) == s[..DefaultMax - 1];
    assert s[..DefaultMax - 1] + "" == s[..DefaultMax - 1];
    assert |s[..DefaultMax - 1]| != |s|;
  }

  /** `truncateWithEllipses` as evidently intended: a string that fits in
      `max` characters is kept, a longer one is cut to `max - 1` characters
      and the ellipsis. */
  function TruncateCorrected(text: JsValue, max: int): (r: Result<JsValue, JsError>)
    ensures !Truthy(text) ==> r == Ok(text)
    ensures Truthy(text) && !text.Str? ==> r == Err(TypeError)
  {
    if !Truthy(text) then Ok(text)
    else
      match text
      case Str(s) => Ok(Str(if |s| > max then Prefix(s, max - 1) + Ellipsis else s))
      case _ => Err(TypeError)
  }

  /** The corrected truncation keeps every text that fits, drops characters
      only when it adds the ellipsis, and agrees with the written one on
      texts that do not fit. */
  lemma CorrectedKeepsFittingText(s: string, max: int)
    requires s != []
    ensures |s| <= max ==> TruncateCorrected(Str(s), max) == Ok(Str(s))
    ensures |s| > max ==> TruncateCorrected(Str(s), max) == Truncate(Str(s), max)
    ensures var r := TruncateCorrected(Str(s), max).value.s;
      r == s || (|Ellipsis| <= |r| && r[|r| - |Ellipsis|..] == Ellipsis && r[..|r| - |Ellipsis|] <= s)
  {
    var r := TruncateCorrected(Str(s), max).value.s;
    if |s| > max {
      var p := Prefix(s, max - 1);
      assert r == p + Ellipsis;
      assert r[|r| - |Ellipsis|..] == Ellipsis;
      assert r[..|r| - |Ellipsis|] == p;
    }
  }

  // ---------------------------------------------------------------------------
  // sortBy
  // ---------------------------------------------------------------------------

  /** The arguments of `sortBy` after the array: the property to sort by,
      whether case matters, and descending order. */
  datatype Order = Order(prop: string, caseSensitive: bool, desc: bool)

  /** The value the comparator compares for one element: `x[prop]`, lower-cased
      when case does not matter; a nullish element, or a key without
      `toLowerCase`, throws. */
  function SortKey(x: JsValue, o: Order): (r: Result<JsValue, JsError>)
    ensures r.Err? <==> IsNullish(x) || (!o.caseSensitive && !Prop(x, o.prop).value.Str?)
    ensures r.Ok? && !o.caseSensitive ==> r.value == Str(ToLower(Prop(x, o.prop).value.s))
  {
    match Prop(x, o.prop)
    case Err(e) => Err(e)
    case Ok(v) =>
      if o.caseSensitive then Ok(v)
      else
        match v
        case Str(s) => Ok(Str(ToLower(s)))
        case _ => Err(TypeError)
  }

  function Key(x: JsValue, o: Order): JsValue {
    match SortKey(x, o)
    case Ok(v) => v
    case Err(_) => Undefined
  }

  /** `a < b` on two keys of one kind: strings by code units, numbers by
      value; keys of different kinds are left unordered. */
  predicate KeyLess(a: JsValue, b: JsValue) {
    (a.Str? && b.Str? && StrLess(a.s, b.s)) || (a.Num? && b.Num? && a.n < b.n)
  }

  /** The comparator is negative: `x` goes before `y`. */
  predicate Before(x: JsValue, y: JsValue, o: Order) {
    if o.desc then KeyLess(Key(y, o), Key(x, o)) else KeyLess(Key(x, o), Key(y, o))
  }

  lemma BeforeAsymmetric(x: JsValue, y: JsValue, o: Order)
    requires Before(x, y, o)
    ensures !Before(y, x, o)
  {
    var kx, ky := Key(x, o), Key(y, o);
    if kx.Str? && ky.Str? {
      if o.desc { StrLessAsymmetric(ky.s, kx.s); } else { StrLessAsymmetric(kx.s, ky.s); }
    }
  }

  lemma BeforeTransitive(x: JsValue, y: JsValue, z: JsValue, o: Order)
    requires Before(x, y, o) && Before(y, z, o)
    ensures Before(x, z, o)
  {
    var kx, ky, kz := Key(x, o), Key(y, o), Key(z, o);
    if kx.Str? && ky.Str? && kz.Str? {
      if o.desc { StrLessTransitive(kz.s, ky.s, kx.s); } else { StrLessTransitive(kx.s, ky.s, kz.s); }
    }
  }

  /** No element is placed after one that the comparator puts before it. */
  predicate Sorted(s: seq<JsValue>, o: Order) {
    forall i, j :: 0 <= i < j < |s| ==> !Before(s[j], s[i], o)
  }

  /** Every element has a key the comparator can read. */
  predicate KeysOk(s: seq<JsValue>, o: Order) {
    forall i :: 0 <= i < |s| ==> SortKey(s[i], o).Ok?
  }

  /** `x` inserted before the first element it goes before, so after every
      element it ties with. */
  function Insert(x: JsValue, s: seq<JsValue>, o: Order): (r: seq<JsValue>)
    ensures multiset(r) == multiset(s) + multiset{x}
    ensures Sorted(s, o) ==> Sorted(r, o)
  {
    if s == [] then [x]
    else if Before(x, s[0], o) then
      var r := [x] + s;
      assert Sorted(s, o) ==> Sorted(r, o) by {
        if Sorted(s, o) {
          forall i, j | 0 <= i < j < |r|
            ensures !Before(r[j], r[i], o)
          {
            if i == 0 {
              assert r[j] == s[j - 1];
              if Before(r[j], x, o) {
                if j == 1 {
                  BeforeAsymmetric(x, s[0], o);
                } else {
                  BeforeTransitive(r[j], x, s[0], o);
                }
              }
            }
          }
        }
      }
      r
    else
      var rest := Insert(x, s[1..], o);
      assert s == [s[0]] + s[1..];
      var r := [s[0]] + rest;
      assert Sorted(s, o) ==> Sorted(r, o) by {
        if Sorted(s, o) {
          assert Sorted(s[1..], o);
          forall i, j | 0 <= i < j < |r|
            ensures !Before(r[j], r[i], o)
          {
            if i == 0 {
              assert r[j] in multiset(rest);
              assert r[j] == x || r[j] in s[1..];
            }
          }
        }
      }
      r
  }

  /** The stable insertion sort of `s` by the comparator. */
  function InsertionSort(s: seq<JsValue>, o: Order): (r: seq<JsValue>)
    ensures multiset(r) == multiset(s) && |r| == |s|
    ensures Sorted(r, o)
    decreases |s|
  {
    if s == [] then []
    else
      var p := s[..|s| - 1];
      assert s == p + [s[|s| - 1]];
      var r := Insert(s[|s| - 1], InsertionSort(p, o), o);
      assert |r| == |multiset(r)|;
      r
  }

  /** The array `sortBy` leaves: sorted, unless the comparator throws, which
      happens as soon as two elements are compared and one key is unusable;
      the exception is swallowed and the array left as it was. */
  function SortResult(s: seq<JsValue>, o: Order): seq<JsValue> {
    if |s| >= 2 && !KeysOk(s, o) then s else InsertionSort(s, o)
  }

  /** `sortBy(sortObject, sortProperty, caseSensitive, sortDesc)`: sorts the
      array it is given and returns that same array. */
  method SortBy(a: array<JsValue>, o: Order) returns (r: array<JsValue>)
    modifies a
    ensures r == a
    ensures a[..] == SortResult(old(a[..]), o)
  {
    r := a;
    if a.Length >= 2 && !KeysOk(a[..], o) {
      return;
    }
    var sorted := InsertionSort(a[..], o);
    var i := 0;
    while i < a.Length
      invariant 0 <= i <= a.Length && |sorted| == a.Length
      invariant forall k :: 0 <= k < i ==> a[k] == sorted[k]
    {
      a[i] := sorted[i];
      i := i + 1;
    }
    assert a[..] == sorted;
  }

  /** The result is always a rearrangement of the input, sorted whenever no
      key throws. */
  lemma SortPermutes(s: seq<JsValue>, o: Order)
    ensures multiset(SortResult(s, o)) == multiset(s)
    ensures (|s| < 2 || KeysOk(s, o)) ==> Sorted(SortResult(s, o), o)
    ensures |s| >= 2 && !KeysOk(s, o) ==> SortResult(s, o) == s
  {
  }

  /** Ascending by names: no name is followed by a smaller one; descending
      reverses the comparison. */
  lemma SortedByName(s: seq<JsValue>, o: Order, i: int, j: int)
    requires o.caseSensitive && Sorted(s, o) && 0 <= i < j < |s|
    requires Key(s[i], o).Str? && Key(s[j], o).Str?
    ensures !o.desc ==> !StrLess(Key(s[j], o).s, Key(s[i], o).s)
    ensures o.desc ==> !StrLess(Key(s[i], o).s, Key(s[j], o).s)
  {
  }

  /** Case-insensitive sorting of two items one of which lacks the property
      throws inside the comparator: the array stays as it was. */
  lemma MissingKeyLeavesOrder(name: string)
    ensures var o := Order("name", false, false);
      var s := [Obj(map["name" := Str(name)]), Obj(map[])];
      SortResult(s, o) == s
  {
    var o := Order("name", false, false);
    var s := [Obj(map["name" := Str(name)]), Obj(map[])];
    assert SortKey(s[1], o).Err?;
  }

  /** Case-insensitive sorting ignores the case of ASCII letters. */
  lemma CaseInsensitiveTies(x: JsValue, y: JsValue, p: string)
    requires x == Obj(map[p := Str("Hall")]) && y == Obj(map[p := Str("hall")])
    ensures !Before(x, y, Order(p, false, false)) && !Before(y, x, Order(p, false, false))
    ensures Before(x, y, Order(p, true, false))
  {
    var ci, cs := Order(p, false, false), Order(p, true, false);
    assert Prop(x, p) == Ok(Str("Hall")) && Prop(y, p) == Ok(Str("hall"));
    assert ToLower("Hall") == "hall" by {
      var l := ToLower("Hall");
      assert l[0] == 'h' && l[1] == 'a' && l[2] == 'l' && l[3] == 'l';
    }
    assert ToLower("hall") == "hall" by {
      var l := ToLower("hall");
      assert l[0] == 'h' && l[1] == 'a' && l[2] == 'l' && l[3] == 'l';
    }
    assert Key(x, ci) == Str("hall") && Key(y, ci) == Str("hall");
    assert Key(x, cs) == Str("Hall") && Key(y, cs) == Str("hall");
    assert StrLess("Hall", "hall") by {
      assert "Hall"[0] == 'H' && "hall"[0] == 'h';
    }
    StrLessIrreflexive("hall");
  }

  // ---------------------------------------------------------------------------
  // The item selector's options
  // ---------------------------------------------------------------------------

  /** An item of the hub's item list as the editor reads it. */
  datatype EditorItem = EditorItem(name: string, itemType: string, tags: seq<string>)

  datatype SelectOption = SelectOption(value: string, text: string)

  /** The option added first when an empty selection is allowed. */
  const EmptyOption: SelectOption := SelectOption("", "")

  /** The option text: the name, marked ` [G]` for a group item. */
  function Label(item: EditorItem): (r: string)
    ensures item.itemType == "Group" ==> r == item.name + " [G]"
    ensures item.itemType != "Group" ==> r == item.name
  {
    item.name + (if item.itemType == "Group" then " [G]" else "")
  }

  /** `itemTagFilter.filter(element => item.tags.includes(element))`. */
  function SharedTags(filter: seq<string>, tags: seq<string>): (r: seq<string>)
    ensures forall t :: t in r <==> t in filter && t in tags
    decreases |filter|
  {
    if filter == [] then []
    else
      var rest := SharedTags(filter[1..], tags);
      assert forall t :: t in filter <==> t == filter[0] || t in filter[1..];
      if filter[0] in tags then [filter[0]] + rest else rest
  }

  /** An item is listed when the type filter is empty or names its type, and
      the tag filter is empty or shares a tag with it. */
  predicate Listed(item: EditorItem, typeFilter: seq<string>, tagFilter: seq<string>) {
    (|typeFilter| == 0 || item.itemType in typeFilter)
    && (|tagFilter| == 0 || exists t :: t in tagFilter && t in item.tags)
  }

  function OptionOf(item: EditorItem): SelectOption {
    SelectOption(item.name, Label(item))
  }

  /** The options of the listed items, in the order of the list. */
  function ListedOptions(items: seq<EditorItem>, typeFilter: seq<string>, tagFilter: seq<string>): seq<SelectOption>
    decreases |items|
  {
    if items == [] then []
    else
      var item := items[|items| - 1];
      ListedOptions(items[..|items| - 1], typeFilter, tagFilter)
        + (if Listed(item, typeFilter, tagFilter) then [OptionOf(item)] else [])
  }

  /** The option list `updateItemList` builds from the sorted items: the empty
      option first when allowed, then each item that passes both filters. */
  method BuildOptions(items: seq<EditorItem>, allowEmpty: bool, typeFilter: seq<string>, tagFilter: seq<string>)
    returns (options: seq<SelectOption>)
    ensures options == (if allowEmpty then [EmptyOption] else []) + ListedOptions(items, typeFilter, tagFilter)
  {
    options := if allowEmpty then [EmptyOption] else [];
    ghost var head := options;
    var i := 0;
    while i < |items|
      invariant 0 <= i <= |items|
      invariant options == head + ListedOptions(items[..i], typeFilter, tagFilter)
    {
      var item := items[i];
      var addItem := true;
      if |typeFilter| > 0 {
        if item.itemType !in typeFilter {
          addItem := false;
        }
      }
      if |tagFilter| > 0 {
        var shared := SharedTags(tagFilter, item.tags);
        if |shared| == 0 {
          addItem := false;
        } else {
          assert shared[0] in tagFilter && shared[0] in item.tags;
        }
      }
      assert addItem == Listed(item, typeFilter, tagFilter);
      if addItem {
        options := options + [OptionOf(item)];
      }
      assert items[..i + 1][..i] == items[..i];
      i := i + 1;
    }
    assert items[..|items|] == items;
  }

  /** Every option after the optional empty one is a listed item's. */
  lemma {:induction false} ListedOptionsSound(items: seq<EditorItem>, typeFilter: seq<string>, tagFilter: seq<string>)
    ensures |ListedOptions(items, typeFilter, tagFilter)| <= |items|
    ensures forall k :: 0 <= k < |ListedOptions(items, typeFilter, tagFilter)| ==>
      exists i :: 0 <= i < |items| && Listed(items[i], typeFilter, tagFilter)
                  && ListedOptions(items, typeFilter, tagFilter)[k] == OptionOf(items[i])
    decreases |items|
  {
    if items != [] {
      var p := items[..|items| - 1];
      var last := items[|items| - 1];
      ListedOptionsSound(p, typeFilter, tagFilter);
      var os := ListedOptions(items, typeFilter, tagFilter);
      var ps := ListedOptions(p, typeFilter, tagFilter);
      assert os == ps + (if Listed(last, typeFilter, tagFilter) then [OptionOf(last)] else []);
      forall k | 0 <= k < |os|
        ensures exists i :: 0 <= i < |items| && Listed(items[i], typeFilter, tagFilter) && os[k] == OptionOf(items[i])
      {
        if k < |ps| {
          assert exists i :: 0 <= i < |p| && Listed(p[i], typeFilter, tagFilter) && ps[k] == OptionOf(p[i]);
          var i :| 0 <= i < |p| && Listed(p[i], typeFilter, tagFilter) && ps[k] == OptionOf(p[i]);
          assert items[i] == p[i] && os[k] == ps[k];
        } else {
          var i := |items| - 1;
          assert Listed(items[i], typeFilter, tagFilter) && os[k] == OptionOf(items[i]);
        }
      }
    }
  }

  /** With no filters every item is listed, each once and in order. */
  lemma {:induction false} NoFiltersListAll(items: seq<EditorItem>)
    ensures ListedOptions(items, [], []) == seq(|items|, i requires 0 <= i < |items| => OptionOf(items[i]))
    decreases |items|
  {
    if items != [] {
      NoFiltersListAll(items[..|items| - 1]);
    }
  }

  /** A type filter drops an item of another type; a tag filter drops an item
      with no tag in common. */
  lemma FiltersExclude(item: EditorItem, typeFilter: seq<string>, tagFilter: seq<string>)
    ensures |typeFilter| > 0 && item.itemType !in typeFilter ==> ListedOptions([item], typeFilter, tagFilter) == []
    ensures |tagFilter| > 0 && SharedTags(tagFilter, item.tags) == [] ==> ListedOptions([item], typeFilter, tagFilter) == []
    ensures Listed(item, typeFilter, tagFilter) ==> ListedOptions([item], typeFilter, tagFilter) == [OptionOf(item)]
  {
    assert [item][..0] == [];
    if |tagFilter| > 0 && SharedTags(tagFilter, item.tags) == [] {
      assert !exists t :: t in tagFilter && t in item.tags;
    }
  }
}
