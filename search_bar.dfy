/** The search bar: the facet-filter map (an insertion-ordered map from tag
    to "active"), the category labels, and the component whose handlers
    drive the search provider. */
module SearchBar {
  import opened Wrappers
  import opened Sequences
  import opened JsStrings
  import opened SearchContext

  /** A JavaScript `Map<string, boolean>`: entries in insertion order. */
  type FilterMap = seq<(string, bool)>

  function Keys(m: FilterMap): (ks: seq<string>)
    ensures |ks| == |m|
    ensures forall i :: 0 <= i < |m| ==> ks[i] == m[i].0
  {
    if m == [] then [] else [m[0].0] + Keys(m[1..])
  }

  /** `m.get(key)`. */
  function Get(m: FilterMap, key: string): (r: Option<bool>)
    ensures r.None? <==> key !in Keys(m)
    ensures r.Some? ==> (key, r.value) in m
  {
    if m == [] then None
    else if m[0].0 == key then Some(m[0].1)
    else Get(m[1..], key)
  }

  /** In a map without repeated keys, `get` returns the value stored with the key. */
  lemma {:induction false} GetAt(m: FilterMap, i: nat)
    requires Distinct(Keys(m)) && i < |m|
    ensures Get(m, m[i].0) == Some(m[i].1)
  {
    if i > 0 {
      assert Keys(m)[0] != Keys(m)[i];
      assert Keys(m[1..]) == Keys(m)[1..];
      GetAt(m[1..], i - 1);
    }
  }

  /** `m.set(key, value)`: an existing key keeps its place and takes the
      new value; a new key goes at the end. */
  function Insert(m: FilterMap, key: string, value: bool): (r: FilterMap)
    ensures Keys(r) == if key in Keys(m) then Keys(m) else Keys(m) + [key]
  {
    if m == [] then [(key, value)]
    else if m[0].0 == key then [(key, value)] + m[1..]
    else
      var r := [m[0]] + Insert(m[1..], key, value);
      assert Keys(m) == [m[0].0] + Keys(m[1..]);
      assert Keys(r) == [m[0].0] + Keys(Insert(m[1..], key, value));
      r
  }

  /** After `set`, the key reads the new value and every other key reads as before. */
  lemma {:induction false} InsertGet(m: FilterMap, key: string, value: bool, k: string)
    ensures Get(Insert(m, key, value), key) == Some(value)
    ensures k != key ==> Get(Insert(m, key, value), k) == Get(m, k)
  {
    if m != [] && m[0].0 != key {
      var r := Insert(m, key, value);
      assert r == [m[0]] + Insert(m[1..], key, value);
      assert r[1..] == Insert(m[1..], key, value);
      InsertGet(m[1..], key, value, k);
    }
  }

  /** `new Map(entries)`: the entries inserted one after another. */
  function FromEntries(entries: seq<(string, bool)>): FilterMap
  {
    if entries == [] then []
    else
      var last := entries[|entries| - 1];
      Insert(FromEntries(entries[..|entries| - 1]), last.0, last.1)
  }

  /** Rebuilding a map from its own entries gives the same map back. */
  lemma {:induction false} FromOwnEntries(m: FilterMap)
    requires Distinct(Keys(m))
    ensures FromEntries(m) == m
  {
    if m != [] {
      var n := |m| - 1;
      var init, last := m[..n], m[n];
      InitOfDistinct(m);
      FromOwnEntries(init);
      InsertNewKeyAppends(init, last.0, last.1);
      assert init + [last] == m;
    }
  }

  /** Dropping the last entry of a map leaves a map without its key. */
  lemma InitOfDistinct(m: FilterMap)
    requires Distinct(Keys(m)) && m != []
    ensures Distinct(Keys(m[..|m| - 1])) && m[|m| - 1].0 !in Keys(m[..|m| - 1])
  {
    KeysOfPrefix(m, |m| - 1);
    DistinctInitAndLast(Keys(m));
  }

  lemma KeysOfPrefix(m: FilterMap, n: nat)
    requires n <= |m|
    ensures Keys(m[..n]) == Keys(m)[..n]
  {
  }

  /** Inserting a key that is not there appends one entry. */
  lemma {:induction false} InsertNewKeyAppends(m: FilterMap, key: string, value: bool)
    requires key !in Keys(m)
    ensures Insert(m, key, value) == m + [(key, value)]
  {
    if m != [] {
      assert Keys(m) == [m[0].0] + Keys(m[1..]);
      InsertNewKeyAppends(m[1..], key, value);
      assert [m[0]] + (m[1..] + [(key, value)]) == m + [(key, value)];
    }
  }

  /** Inserting keeps keys unique. */
  lemma InsertKeepsDistinct(m: FilterMap, key: string, value: bool)
    requires Distinct(Keys(m))
    ensures Distinct(Keys(Insert(m, key, value)))
  {
  }

  /** `filters.get(tag) || false`: whether the tag's checkbox is checked. */
  function IsChecked(m: FilterMap, tag: string): bool {
    Get(m, tag) == Some(true)
  }

  /** `!filters.get(tag)`: JavaScript negation, under which a missing tag reads as false. */
  function Negated(v: Option<bool>): bool {
    match v
    case None => true
    case Some(b) => !b
  }

  /** The checkbox handler's new map: `new Map([...filters, [tag, !filters.get(tag)]])`. */
  function Toggle(m: FilterMap, tag: string): FilterMap {
    FromEntries(m + [(tag, Negated(Get(m, tag)))])
  }

  /** Toggling flips the tag (a missing tag becomes true), leaves every other
      tag alone, keeps the key order and appends a new tag at the end. */
  lemma ToggleSpec(m: FilterMap, tag: string)
    requires Distinct(Keys(m))
    ensures var r := Toggle(m, tag);
      && Get(r, tag) == Some(!IsChecked(m, tag))
      && (forall k :: k != tag ==> Get(r, k) == Get(m, k))
      && Keys(r) == (if tag in Keys(m) then Keys(m) else Keys(m) + [tag])
      && Distinct(Keys(r))
  {
    var v := Negated(Get(m, tag));
    var e := m + [(tag, v)];
    assert e[..|e| - 1] == m;
    FromOwnEntries(m);
    assert Toggle(m, tag) == Insert(m, tag, v);
    InsertKeepsDistinct(m, tag, v);
    forall k ensures Get(Insert(m, tag, v), tag) == Some(v)
      && (k != tag ==> Get(Insert(m, tag, v), k) == Get(m, k))
    {
      InsertGet(m, tag, v, k);
    }
  }

  lemma ToggleKeepsDistinct(m: FilterMap, tag: string)
    requires Distinct(Keys(m))
    ensures Distinct(Keys(Toggle(m, tag)))
  {
    ToggleSpec(m, tag);
  }

  /** Toggling the same tag twice restores its value; a new tag comes back
      as an explicit false. */
  lemma ToggleTwice(m: FilterMap, tag: string)
    requires Distinct(Keys(m))
    ensures Get(Toggle(Toggle(m, tag), tag), tag) == Some(IsChecked(m, tag))
  {
    ToggleSpec(m, tag);
    ToggleSpec(Toggle(m, tag), tag);
  }

  /** The list sent to the provider: `Array.from(m.entries())`, keeping the
      entries whose value is true, keys only. */
  function ActiveKeys(m: FilterMap): seq<string> {
    if m == [] then []
    else if m[0].1 then [m[0].0] + ActiveKeys(m[1..])
    else ActiveKeys(m[1..])
  }

  /** The active list keeps the map order and holds exactly the keys stored with true. */
  lemma {:induction false} ActiveKeysInOrder(m: FilterMap)
    ensures IsSubsequence(ActiveKeys(m), Keys(m))
    ensures forall k :: k in ActiveKeys(m) <==> (k, true) in m
  {
    if m != [] {
      ActiveKeysInOrder(m[1..]);
      var rest := ActiveKeys(m[1..]);
      assert Keys(m) == [m[0].0] + Keys(m[1..]);
      assert forall e :: e in m <==> e == m[0] || e in m[1..];
      SubsequenceOfLonger(rest, m[0].0, Keys(m[1..]));
    }
  }

  /** For a map, the active list has no duplicates and holds exactly the checked tags. */
  lemma ActiveKeysSpec(m: FilterMap)
    requires Distinct(Keys(m))
    ensures Distinct(ActiveKeys(m))
    ensures forall k :: k in ActiveKeys(m) <==> IsChecked(m, k)
  {
    ActiveKeysInOrder(m);
    SubsequenceOfDistinct(ActiveKeys(m), Keys(m));
    forall k ensures k in ActiveKeys(m) <==> IsChecked(m, k) {
      if (k, true) in m {
        var i :| 0 <= i < |m| && m[i] == (k, true);
        GetAt(m, i);
      }
    }
  }

  /** `[...filters.values()].every(v => !v)`. */
  predicate AreFiltersEmpty(m: FilterMap) {
    forall i :: 0 <= i < |m| ==> !m[i].1
  }

  /** No filter is active exactly when no tag is checked, and exactly when the
      active list is empty; the empty map qualifies. */
  lemma AreFiltersEmptyIff(m: FilterMap)
    requires Distinct(Keys(m))
    ensures AreFiltersEmpty(m) <==> ActiveKeys(m) == []
    ensures AreFiltersEmpty(m) <==> forall k :: !IsChecked(m, k)
    ensures AreFiltersEmpty([])
  {
    ActiveKeysSpec(m);
    ActiveKeysInOrder(m);
    if !AreFiltersEmpty(m) {
      var i :| 0 <= i < |m| && m[i].1;
      assert (m[i].0, true) in m;
      assert m[i].0 in ActiveKeys(m);
    }
  }

  /** The clear button is hidden when the query is empty and no filter is active. */
  function ClearButtonHidden(query: string, filters: FilterMap): (hidden: bool)
    requires Distinct(Keys(filters))
    ensures hidden <==> query == "" && ActiveKeys(filters) == []
  {
    AreFiltersEmptyIff(filters);
    query == "" && AreFiltersEmpty(filters)
  }

  /** The facet groups and their tags, in declaration order. */
  const FilterLabels: seq<(string, seq<string>)> := [
    ("exercise_mechanics", ["push", "pull"]),
    ("exercise_equipment", ["assisted", "lever", "barbell", "body weight", "cable", "dumbbell", "sled", "smith"])
  ]

  /** `getFilterCategory`: the heading shown for a facet group. */
  function FilterCategory(key: string): Option<string> {
    if key == "exercise_equipment" then Some("Equipment")
    else if key == "exercise_mechanics" then Some("Mechanics")
    else None
  }

  /** Exactly the declared facet groups have a heading, each its own. */
  lemma FilterCategoryCoversLabels(key: string)
    ensures FilterCategory(key).Some? <==> exists i :: 0 <= i < |FilterLabels| && FilterLabels[i].0 == key
    ensures FilterCategory(FilterLabels[0].0) == Some("Mechanics")
    ensures FilterCategory(FilterLabels[1].0) == Some("Equipment")
  {
    if FilterCategory(key).Some? {
      assert key == FilterLabels[0].0 || key == FilterLabels[1].0;
    }
  }

  /** A checkbox id: the tag with its first space turned into `-`. */
  function CheckboxId(tag: string): (id: string)
    ensures |id| == |tag|
    ensures ' ' !in tag ==> id == tag
    ensures ' ' in tag ==> id[IndexOf(tag, ' ')] == '-'
    ensures forall i :: 0 <= i < |tag| && i != IndexOf(tag, ' ') ==> id[i] == tag[i]
  {
    ReplaceFirst(tag, ' ', '-')
  }

  /** Only the first space is replaced: a later space survives. */
  lemma CheckboxIdKeepsLaterSpaces(tag: string, i: nat)
    requires i < |tag| && tag[i] == ' '
    requires exists j :: 0 <= j < i && tag[j] == ' '
    ensures CheckboxId(tag)[i] == ' '
  {
    var j :| 0 <= j < i && tag[j] == ' ';
    var k := IndexOf(tag, ' ');
    assert forall m :: 0 <= m < k ==> tag[..k][m] == tag[m];
  }

  /** The provider hooks the search bar calls while it renders, in order. */
  const RenderHooks: seq<string> := ["useUpdateSearchQuery", "useUpdateSearchFilters", "useSearchQuery"]

  /** The first hook among `hooks` that `exports` does not provide. */
  function FirstMissing(hooks: seq<string>, exports: set<string>): (r: Option<string>)
    ensures r.None? <==> forall i :: 0 <= i < |hooks| ==> hooks[i] in exports
    ensures r.Some? ==>
      exists i ::
        && 0 <= i < |hooks| && hooks[i] == r.value && hooks[i] !in exports
        && forall j :: 0 <= j < i ==> hooks[j] in exports
  {
    if hooks == [] then None
    else if hooks[0] !in exports then Some(hooks[0])
    else
      var r := FirstMissing(hooks[1..], exports);
      if r.Some? then
        var i :|
          && 0 <= i < |hooks[1..]| && hooks[1..][i] == r.value && hooks[1..][i] !in exports
          && forall j :: 0 <= j < i ==> hooks[1..][j] in exports;
        assert hooks[i + 1] == r.value;
        r
      else r
  }

  /** What calling an import the module does not provide throws. */
  function NotAFunction(name: string): string {
    name + " is not a function"
  }

  /** Rendering the search bar against a provider module with the given
      exports: the first hook it lacks throws, otherwise rendering proceeds. */
  function Mount(exports: set<string>): (r: Result<(), string>)
    ensures r.Ok? <==> forall i :: 0 <= i < |RenderHooks| ==> RenderHooks[i] in exports
    ensures r.Err? ==> exists h :: h in RenderHooks && h !in exports && r.error == NotAFunction(h)
  {
    match FirstMissing(RenderHooks, exports)
    case None => Ok(())
    case Some(h) => Err(NotAFunction(h))
  }

  /** As written, the search bar cannot render: the filter hook it imports
      is not exported. */
  lemma MountAsWrittenFails()
    ensures Mount(Exports) == Err(NotAFunction("useUpdateSearchFilters"))
  {
    assert RenderHooks[0] in Exports;
    assert RenderHooks[1] !in Exports;
    assert RenderHooks[1..][1..] == RenderHooks[2..];
  }

  /** With the filter hook exported beside the other accessors, the
      search bar renders. */
  lemma MountWithFiltersHookExported()
    ensures Mount(Exports + {"useUpdateSearchFilters"}).Ok?
  {
    var exports := Exports + {"useUpdateSearchFilters"};
    assert forall i :: 0 <= i < |RenderHooks| ==> RenderHooks[i] in exports;
  }

  datatype Tab = All | Recent

  /** The search bar rendered inside `provider`, on the `selectedTab` tab. */
  class SearchBarComponent {
    const provider: ExerciseProvider
    const selectedTab: Tab
    var filters: FilterMap
    var inputValue: string

    ghost predicate Valid()
      reads this, provider
    {
      provider.Valid() && Distinct(Keys(filters))
    }

    /** A fresh bar: no filters, the input showing the route's `term` or "". */
    constructor (provider: ExerciseProvider, selectedTab: Tab)
      requires provider.Valid()
      ensures Valid() && this.provider == provider && this.selectedTab == selectedTab
      ensures filters == []
      ensures inputValue == if provider.termParam.Some? then provider.termParam.value else ""
    {
      this.provider := provider;
      this.selectedTab := selectedTab;
      filters := [];
      inputValue := if provider.termParam.Some? then provider.termParam.value else "";
    }

    /** `clearSearch`: a non-debounced blank update, `term` removed from the
        route, the input emptied. */
    method ClearSearch()
      requires Valid()
      modifies this`inputValue, provider
      ensures Valid()
      ensures provider.query == "" && provider.termParam == None && provider.pending == None
      ensures provider.directory == old(provider.directory) && provider.filters == old(provider.filters)
      ensures provider.directoryCache == old(provider.directoryCache)
      ensures provider.searchCache == old(provider.searchCache)
      ensures inputValue == "" && filters == old(filters)
    {
      TrimBlankIff("");
      provider.Submit("", false);
      provider.termParam := None;
      inputValue := "";
    }

    /** `onTermChange`: debounce on the "all" tab only; an empty input first
        runs `clearSearch`, then the text is submitted either way. */
    method OnTermChange(text: string)
      requires Valid()
      modifies this`inputValue, provider
      ensures Valid()
      ensures inputValue == text && filters == old(filters)
      ensures Trim(text) == "" ==>
        provider.query == "" && provider.termParam == None && provider.pending == None
      ensures Trim(text) != "" && selectedTab == All ==>
        && provider.query == old(provider.query) && provider.termParam == old(provider.termParam)
        && provider.pending == Some(Trim(text))
      ensures Trim(text) != "" && selectedTab == Recent ==>
        && provider.query == Trim(text) && provider.termParam == Some(Trim(text))
        && provider.pending == old(provider.pending)
      ensures provider.directory == old(provider.directory) && provider.filters == old(provider.filters)
      ensures provider.directoryCache == old(provider.directoryCache)
      ensures provider.searchCache == old(provider.searchCache)
    {
      inputValue := text;
      var shouldDebounce := selectedTab == All;
      if |text| == 0 {
        ClearSearch();
      }
      provider.Submit(text, shouldDebounce);
    }

    /** The checkbox handler as evidently intended: toggle the tag, send
        the active tags to the provider through the setter obtained at
        render time, keep the new map. */
    method OnToggle(tag: string)
      requires Valid()
      modifies this`filters, provider
      ensures Valid()
      ensures filters == Toggle(old(filters), tag)
      ensures provider.filters == ActiveKeys(filters)
      ensures provider.query == old(provider.query) && provider.termParam == old(provider.termParam)
      ensures provider.pending == old(provider.pending) && provider.directory == old(provider.directory)
      ensures provider.directoryCache == old(provider.directoryCache)
      ensures provider.searchCache == old(provider.searchCache)
      ensures inputValue == old(inputValue)
    {
      var newMap := Toggle(filters, tag);
      ToggleKeepsDistinct(filters, tag);
      provider.SetSearchFilters(ActiveKeys(newMap));
      filters := newMap;
    }

    /** The checkbox handler as written: the provider's setter runs its
        hook inside the event handler and throws, so the handler stops
        before `setFilters` and neither the local map nor the provider's
        list changes. */
    method OnToggleAsWritten(tag: string) returns (r: Result<(), string>)
      requires Valid()
      modifies this`filters, provider`filters
      ensures Valid()
      ensures r == Err(HookOutsideRender)
      ensures filters == old(filters) && provider.filters == old(provider.filters)
      ensures provider.query == old(provider.query) && provider.termParam == old(provider.termParam)
      ensures provider.pending == old(provider.pending) && provider.directory == old(provider.directory)
      ensures inputValue == old(inputValue)
    {
      var newMap := Toggle(filters, tag);
      // the setter throws here, so `setFilters(newMap)` is never reached
      r := provider.UpdateSearchFilters(EventHandler, Some(provider), ActiveKeys(newMap));
    }

    /** The clear button: clear the search and reset the local filter map.
        The list the provider last received is not reset. */
    method OnClearButton()
      requires Valid()
      modifies this`inputValue, this`filters, provider
      ensures Valid()
      ensures filters == [] && inputValue == ""
      ensures provider.query == "" && provider.termParam == None && provider.pending == None
      ensures provider.filters == old(provider.filters) && provider.directory == old(provider.directory)
      ensures provider.directoryCache == old(provider.directoryCache)
      ensures provider.searchCache == old(provider.searchCache)
      ensures ClearButtonHidden(provider.query, filters)
    {
      ClearSearch();
      filters := [];
    }
  }
}
