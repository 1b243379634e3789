/**
 * The model-management page (src/pages/model-management/index.jsx): the size
 * category of a model, the search/type/size filter, the sort by the chosen
 * key, and the page state the handlers update (tab, filters and the list of
 * selected models).
 */
module ModelManagement {
  import opened Wrappers
  import Text

  /** One model card: the fields the filter and the sort read. */
  datatype Model = Model(
    id: string,
    name: string,
    modelType: string,
    size: nat,
    description: Option<string>,
    downloads: Option<nat>,
    rating: Option<nat>,
    lastUsed: Option<int>)

  // ------------------------------------------------------------ size category

  const GiB: nat := 1024 * 1024 * 1024

  datatype SizeCategory = Small | Medium | Large | XLarge {
    /** The string `getSizeCategory` returns. */
    function Name(): string {
      match this
      case Small => "small"
      case Medium => "medium"
      case Large => "large"
      case XLarge => "xlarge"
    }

    /** Position in the order small < medium < large < xlarge. */
    function Rank(): nat {
      match this
      case Small => 0
      case Medium => 1
      case Large => 2
      case XLarge => 3
    }
  }

  /**
   * `getSizeCategory`: the size in GiB compared with 1, 5 and 15. Dividing a
   * byte count by 1024³ is exact, so each comparison is one on the byte count.
   */
  function CategoryOf(size: nat): (c: SizeCategory)
    ensures c == Small <==> size < GiB
    ensures c == Medium <==> GiB <= size < 5 * GiB
    ensures c == Large <==> 5 * GiB <= size < 15 * GiB
    ensures c == XLarge <==> 15 * GiB <= size
  {
    if size < GiB then Small
    else if size < 5 * GiB then Medium
    else if size < 15 * GiB then Large
    else XLarge
  }

  /** A bigger model never falls in a smaller category. */
  lemma CategoryMonotone(a: nat, b: nat)
    requires a <= b
    ensures CategoryOf(a).Rank() <= CategoryOf(b).Rank()
  {
  }

  // ------------------------------------------------------------------ filter

  /** The filter and sort fields of the page. */
  datatype Filters = Filters(searchQuery: string, selectedType: string, selectedSize: string, sortBy: string)

  /** The fields `handleClearFilters` resets to, which are also the initial ones. */
  const Cleared := Filters("", "all", "all", "name")

  /**
   * The `filter` predicate: the lowercased name or the lowercased description
   * contains the lowercased query, and the type and the size category match
   * unless their filter is `'all'`. A model without a description is matched
   * on its name alone.
   */
  predicate Matches(m: Model, f: Filters) {
    var q := Text.ToLower(f.searchQuery);
    && (Text.Contains(Text.ToLower(m.name), q)
        || (m.description.Some? && Text.Contains(Text.ToLower(m.description.value), q)))
    && (f.selectedType == "all" || m.modelType == f.selectedType)
    && (f.selectedSize == "all" || CategoryOf(m.size).Name() == f.selectedSize)
  }

  /**
   * `models.filter(...)`: keeps every matching model as often as it occurs and
   * drops every other one.
   */
  function Kept(models: seq<Model>, f: Filters): (r: seq<Model>)
    ensures |r| <= |models|
    decreases |models|
  {
    if |models| == 0 then []
    else
      Kept(models[..|models| - 1], f) + KeptOne(models[|models| - 1], f)
  }

  /** What the filter keeps of a single model. */
  function KeptOne(m: Model, f: Filters): seq<Model> {
    if Matches(m, f) then [m] else []
  }

  /** The filter keeps each matching model as often as it occurs and no other model. */
  lemma {:induction false} KeptCounts(models: seq<Model>, f: Filters)
    ensures forall m | Matches(m, f) :: multiset(Kept(models, f))[m] == multiset(models)[m]
    ensures forall m | !Matches(m, f) :: multiset(Kept(models, f))[m] == 0
    decreases |models|
  {
    if |models| > 0 {
      var init, last := models[..|models| - 1], models[|models| - 1];
      assert models == init + [last];
      KeptCounts(init, f);
    }
  }

  /** Appending one model adds what the filter keeps of it. */
  lemma KeptSnoc(s: seq<Model>, x: Model, f: Filters)
    ensures Kept(s + [x], f) == Kept(s, f) + KeptOne(x, f)
  {
    var t := s + [x];
    assert t[..|t| - 1] == s;
  }

  /** The filter keeps the models in their given order: it distributes over concatenation. */
  lemma {:induction false} KeptAppend(a: seq<Model>, b: seq<Model>, f: Filters)
    ensures Kept(a + b, f) == Kept(a, f) + Kept(b, f)
    decreases |b|
  {
    if |b| == 0 {
      assert a + b == a;
    } else {
      var init, last := b[..|b| - 1], b[|b| - 1];
      var one := KeptOne(last, f);
      calc {
        Kept(a + b, f);
      == { assert a + b == (a + init) + [last]; }
        Kept((a + init) + [last], f);
      == { KeptSnoc(a + init, last, f); }
        Kept(a + init, f) + one;
      == { KeptAppend(a, init, f); }
        (Kept(a, f) + Kept(init, f)) + one;
      ==
        Kept(a, f) + (Kept(init, f) + one);
      == { KeptSnoc(init, last, f); assert init + [last] == b; }
        Kept(a, f) + Kept(b, f);
      }
    }
  }

  /** An empty query with type and size `'all'` keeps every model. */
  lemma EmptyQueryKeepsAll(m: Model, sortBy: string)
    ensures Matches(m, Filters("", "all", "all", sortBy))
  {
    Text.ContainsEmpty(Text.ToLower(m.name));
    assert Text.ToLower("") == "";
  }

  // -------------------------------------------------------------------- sort

  /** `a.localeCompare(b)` as plain code-unit order: -1, 0 or 1. */
  function LexCompare(a: string, b: string): (c: int)
    ensures -1 <= c <= 1
    decreases |a|
  {
    if |a| == 0 && |b| == 0 then 0
    else if |a| == 0 then -1
    else if |b| == 0 then 1
    else if a[0] < b[0] then -1
    else if a[0] > b[0] then 1
    else LexCompare(a[1..], b[1..])
  }

  /** Swapping the arguments flips the sign, and only equal strings compare equal. */
  lemma {:induction false} LexCompareFlip(a: string, b: string)
    ensures LexCompare(a, b) == -LexCompare(b, a)
    ensures LexCompare(a, b) == 0 <==> a == b
    decreases |a|
  {
    if |a| > 0 && |b| > 0 && a[0] == b[0] {
      LexCompareFlip(a[1..], b[1..]);
      assert a == [a[0]] + a[1..];
      assert b == [b[0]] + b[1..];
    }
  }

  /** The comparator passed to `filtered.sort` for each `sortBy`; missing numbers count as 0. */
  function Compare(sortBy: string, a: Model, b: Model): int {
    if sortBy == "name_desc" then LexCompare(b.name, a.name)
    else if sortBy == "size" then a.size - b.size
    else if sortBy == "size_desc" then b.size - a.size
    else if sortBy == "downloads" then b.downloads.GetOr(0) - a.downloads.GetOr(0)
    else if sortBy == "rating" then b.rating.GetOr(0) - a.rating.GetOr(0)
    else if sortBy == "recent" then b.lastUsed.GetOr(0) - a.lastUsed.GetOr(0)
    else LexCompare(a.name, b.name)
  }

  /** Every comparator is antisymmetric, which is what a consistent sort needs. */
  lemma CompareFlip(sortBy: string, a: Model, b: Model)
    ensures Compare(sortBy, a, b) == -Compare(sortBy, b, a)
  {
    LexCompareFlip(a.name, b.name);
  }

  /** Each neighbour pair is in the comparator's order. */
  predicate Sorted(sortBy: string, s: seq<Model>) {
    forall i | 0 <= i < |s| - 1 :: Compare(sortBy, s[i], s[i + 1]) <= 0
  }

  /** Places `x` after every element that does not compare greater than it. */
  function Insert(sortBy: string, x: Model, sorted: seq<Model>): seq<Model>
    decreases |sorted|
  {
    if |sorted| == 0 then [x]
    else if Compare(sortBy, sorted[0], x) > 0 then [x] + sorted
    else [sorted[0]] + Insert(sortBy, x, sorted[1..])
  }

  /**
   * `Array.prototype.sort` with a comparator, which is stable: a stable
   * insertion sort, taking the elements in their given order.
   */
  function Sort(sortBy: string, s: seq<Model>): seq<Model>
    decreases |s|
  {
    if |s| == 0 then [] else Insert(sortBy, s[|s| - 1], Sort(sortBy, s[..|s| - 1]))
  }

  /** A model that does not compare greater than the head of a sorted list can go in front of it. */
  lemma SortedCons(sortBy: string, y: Model, s: seq<Model>)
    requires Sorted(sortBy, s)
    requires |s| > 0 ==> Compare(sortBy, y, s[0]) <= 0
    ensures Sorted(sortBy, [y] + s)
  {
    var r := [y] + s;
    forall i | 0 <= i < |r| - 1
      ensures Compare(sortBy, r[i], r[i + 1]) <= 0
    {
      if i > 0 {
        assert r[i] == s[i - 1] && r[i + 1] == s[i];
      }
    }
  }

  /** Inserting adds exactly `x`. */
  lemma {:induction false} InsertPermutes(sortBy: string, x: Model, sorted: seq<Model>)
    ensures multiset(Insert(sortBy, x, sorted)) == multiset(sorted) + multiset{x}
    decreases |sorted|
  {
    if |sorted| > 0 && Compare(sortBy, sorted[0], x) <= 0 {
      var y, tail := sorted[0], sorted[1..];
      assert sorted == [y] + tail;
      InsertPermutes(sortBy, x, tail);
    }
  }

  /** Inserting into a sorted list keeps it sorted; the new head is `x` or the old head. */
  lemma {:induction false} InsertKeepsSorted(sortBy: string, x: Model, sorted: seq<Model>)
    requires Sorted(sortBy, sorted)
    ensures Sorted(sortBy, Insert(sortBy, x, sorted))
    ensures |Insert(sortBy, x, sorted)| > 0
    ensures Insert(sortBy, x, sorted)[0] == x || Insert(sortBy, x, sorted)[0] == sorted[0]
    decreases |sorted|
  {
    if |sorted| == 0 {
      assert Insert(sortBy, x, sorted) == [x];
    } else {
      var y, tail := sorted[0], sorted[1..];
      CompareFlip(sortBy, y, x);
      if Compare(sortBy, y, x) > 0 {
        SortedCons(sortBy, x, sorted);
      } else {
        assert Sorted(sortBy, tail) by {
          forall i | 0 <= i < |tail| - 1
            ensures Compare(sortBy, tail[i], tail[i + 1]) <= 0
          {
            assert tail[i] == sorted[i + 1] && tail[i + 1] == sorted[i + 2];
          }
        }
        var rest := Insert(sortBy, x, tail);
        assert Insert(sortBy, x, sorted) == [y] + rest;
        InsertKeepsSorted(sortBy, x, tail);
        assert |tail| > 0 ==> Compare(sortBy, y, tail[0]) <= 0;
        SortedCons(sortBy, y, rest);
      }
    }
  }

  /** The sort returns a permutation of its input. */
  lemma {:induction false} SortPermutes(sortBy: string, s: seq<Model>)
    ensures multiset(Sort(sortBy, s)) == multiset(s)
    decreases |s|
  {
    if |s| > 0 {
      var init, x := s[..|s| - 1], s[|s| - 1];
      SortPermutes(sortBy, init);
      InsertPermutes(sortBy, x, Sort(sortBy, init));
      assert s == init + [x];
    }
  }

  /** The sort returns its input in the comparator's order. */
  lemma {:induction false} SortIsSorted(sortBy: string, s: seq<Model>)
    ensures Sorted(sortBy, Sort(sortBy, s))
    decreases |s|
  {
    if |s| > 0 {
      var init := s[..|s| - 1];
      SortIsSorted(sortBy, init);
      InsertKeepsSorted(sortBy, s[|s| - 1], Sort(sortBy, init));
    }
  }

  /** `filterModels`: the matching models, sorted by `sortBy`. */
  function FilterModels(models: seq<Model>, f: Filters): seq<Model> {
    Sort(f.sortBy, Kept(models, f))
  }

  /**
   * `filterModels` returns exactly the matching models, each as often as it
   * occurs in the input, in the order of `sortBy`.
   */
  lemma FilterModelsSpec(models: seq<Model>, f: Filters)
    ensures forall m | Matches(m, f) :: multiset(FilterModels(models, f))[m] == multiset(models)[m]
    ensures forall m | !Matches(m, f) :: m !in FilterModels(models, f)
    ensures Sorted(f.sortBy, FilterModels(models, f))
  {
    KeptCounts(models, f);
    SortPermutes(f.sortBy, Kept(models, f));
    SortIsSorted(f.sortBy, Kept(models, f));
  }

  // -------------------------------------------------------------- selection

  /** `prev.filter(m => m.id !== id)`. */
  function WithoutId(s: seq<Model>, id: string): (r: seq<Model>)
    ensures |r| <= |s|
    decreases |s|
  {
    if |s| == 0 then []
    else
      var init := s[..|s| - 1];
      if s[|s| - 1].id != id then WithoutId(init, id) + [s[|s| - 1]] else WithoutId(init, id)
  }

  /** Deselecting removes every entry with the id and keeps every other entry. */
  lemma {:induction false} WithoutIdMembers(s: seq<Model>, id: string)
    ensures forall m :: m in WithoutId(s, id) <==> m in s && m.id != id
    decreases |s|
  {
    if |s| > 0 {
      var init, last := s[..|s| - 1], s[|s| - 1];
      assert s == init + [last];
      WithoutIdMembers(init, id);
    }
  }

  /** Appending one model keeps it exactly when it has another id. */
  lemma WithoutIdSnoc(s: seq<Model>, x: Model, id: string)
    ensures WithoutId(s + [x], id) == if x.id != id then WithoutId(s, id) + [x] else WithoutId(s, id)
  {
    var t := s + [x];
    assert t[..|t| - 1] == s;
    assert t[|t| - 1] == x;
  }

  /** Deselecting keeps the other entries in order: it distributes over concatenation. */
  lemma {:induction false} WithoutIdAppend(a: seq<Model>, b: seq<Model>, id: string)
    ensures WithoutId(a + b, id) == WithoutId(a, id) + WithoutId(b, id)
    decreases |b|
  {
    if |b| == 0 {
      assert a + b == a;
    } else {
      var init, last := b[..|b| - 1], b[|b| - 1];
      assert b == init + [last];
      assert a + b == (a + init) + [last];
      WithoutIdAppend(a, init, id);
      WithoutIdSnoc(a + init, last, id);
      WithoutIdSnoc(init, last, id);
      if last.id != id {
        assert (WithoutId(a, id) + WithoutId(init, id)) + [last] == WithoutId(a, id) + (WithoutId(init, id) + [last]);
      }
    }
  }

  /** Removing an id nobody has changes nothing. */
  lemma {:induction false} WithoutAbsentId(s: seq<Model>, id: string)
    requires forall m | m in s :: m.id != id
    ensures WithoutId(s, id) == s
    decreases |s|
  {
    if |s| > 0 {
      var init, last := s[..|s| - 1], s[|s| - 1];
      assert s == init + [last];
      assert last in s;
      assert forall m | m in init :: m in s;
      WithoutAbsentId(init, id);
      WithoutIdSnoc(init, last, id);
    }
  }

  /** Deselecting a model that was just selected, and was not selected before, undoes the selection. */
  lemma DeselectUndoesSelect(s: seq<Model>, m: Model)
    requires forall x | x in s :: x.id != m.id
    ensures WithoutId(s + [m], m.id) == s
  {
    WithoutIdAppend(s, [m], m.id);
    WithoutAbsentId(s, m.id);
    assert [m][..0] == [];
  }

  /** `isAllSelected`: the lengths agree and the list is not empty. */
  predicate AllSelected(selection: seq<Model>, current: seq<Model>) {
    |selection| == |current| && |current| > 0
  }

  /**
   * `isAllSelected` compares lengths only: a selection made before the query
   * changed counts as "all selected" while the shown model is not in it.
   */
  lemma AllSelectedByLengthOnly()
    ensures exists selection: seq<Model>, current: seq<Model> ::
      AllSelected(selection, current) && current[0] !in selection
  {
    var a := Model("a", "A", "language", 0, None, None, None, None);
    var b := Model("b", "B", "language", 0, None, None, None, None);
    assert AllSelected([a], [b]) && [b][0] !in [a];
  }

  datatype Tab = Installed | Available

  /** The page's state and its handlers. The two model lists are fixed data. */
  class ModelManagementPage {
    const installedModels: seq<Model>
    const availableModels: seq<Model>
    var activeTab: Tab
    var filters: Filters
    var selectedModels: seq<Model>

    /** The initial state: installed tab, cleared filters, nothing selected. */
    constructor(installed: seq<Model>, available: seq<Model>)
      ensures installedModels == installed && availableModels == available
      ensures activeTab == Installed && filters == Cleared && selectedModels == []
    {
      installedModels := installed;
      availableModels := available;
      activeTab := Installed;
      filters := Cleared;
      selectedModels := [];
    }

    /** `currentModels`: the filtered list of the active tab. */
    function CurrentModels(): seq<Model>
      reads this
    {
      FilterModels(if activeTab == Installed then installedModels else availableModels, filters)
    }

    /** `isAllSelected`. */
    predicate IsAllSelected()
      reads this
    {
      AllSelected(selectedModels, CurrentModels())
    }

    /** `handleModelSelect`: append on select, drop every entry with the id on deselect. */
    method SelectModel(model: Model, isSelected: bool)
      modifies this
      ensures selectedModels == if isSelected then old(selectedModels) + [model] else WithoutId(old(selectedModels), model.id)
      ensures activeTab == old(activeTab) && filters == old(filters)
    {
      if isSelected {
        selectedModels := selectedModels + [model];
      } else {
        selectedModels := WithoutId(selectedModels, model.id);
      }
    }

    /** `handleSelectAll`: the selection becomes the current list; it is all selected unless that list is empty. */
    method SelectAll()
      modifies this
      ensures selectedModels == CurrentModels()
      ensures activeTab == old(activeTab) && filters == old(filters)
      ensures IsAllSelected() <==> |CurrentModels()| > 0
    {
      selectedModels := CurrentModels();
    }

    /** `handleDeselectAll`, and `handleBulkDelete` after its log line: the selection empties. */
    method DeselectAll()
      modifies this
      ensures selectedModels == []
      ensures activeTab == old(activeTab) && filters == old(filters)
      ensures !IsAllSelected()
    {
      selectedModels := [];
    }

    /** A tab button: switches the tab and empties the selection. */
    method SwitchTab(tab: Tab)
      modifies this
      ensures activeTab == tab && selectedModels == [] && filters == old(filters)
      ensures !IsAllSelected()
    {
      activeTab := tab;
      selectedModels := [];
    }

    /** The empty installed list's "browse" button: switches to the available tab and keeps the selection. */
    method BrowseAvailable()
      modifies this
      ensures activeTab == Available && selectedModels == old(selectedModels) && filters == old(filters)
    {
      activeTab := Available;
    }

    /** `handleClearFilters`: query `''`, type and size `'all'`, sort `'name'`; selection and tab stay. */
    method ClearFilters()
      modifies this
      ensures filters == Cleared
      ensures activeTab == old(activeTab) && selectedModels == old(selectedModels)
    {
      filters := Cleared;
    }
  }
}
