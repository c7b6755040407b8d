/** The exercise-directory search provider: a query controller with a
    trailing-edge debounced path, and the reconciler that picks which
    directory the UI shows. */
module SearchContext {
  import opened Wrappers
  import opened JsStrings
  import opened Sequences

  /** One entry of the exercise catalog; only the name takes part in search. */
  datatype Exercise = Exercise(id: nat, name: string)

  /** Case-insensitive substring match of the query against the entry's name. */
  predicate NameMatches(e: Exercise, query: string) {
    Includes(Lower(e.name), Lower(query))
  }

  /** `entries.filter(ex => ex.name.toLowerCase().includes(query.toLowerCase()))`:
      keeps, in order, exactly the matching entries with their multiplicities. */
  function FilterByName(entries: seq<Exercise>, query: string): (r: seq<Exercise>)
    ensures IsSubsequence(r, entries)
    ensures forall e :: multiset(r)[e] == if NameMatches(e, query) then multiset(entries)[e] else 0
  {
    if entries == [] then []
    else
      var rest := FilterByName(entries[1..], query);
      assert entries == [entries[0]] + entries[1..];
      if NameMatches(entries[0], query) then [entries[0]] + rest else rest
  }

  /** `getFilteredFallback`: the cached directory filtered by the query, or
      nothing when no directory has been cached. */
  function FilteredFallback(directoryCache: Option<seq<Exercise>>, query: string): (r: seq<Exercise>)
    ensures directoryCache.None? ==> r == []
    ensures directoryCache.Some? ==> IsSubsequence(r, directoryCache.value)
    ensures forall e :: e in r <==> directoryCache.Some? && e in directoryCache.value && NameMatches(e, query)
  {
    match directoryCache
    case None => []
    case Some(entries) =>
      var r := FilterByName(entries, query);
      assert forall e :: e in r <==> multiset(r)[e] > 0;
      assert forall e :: e in entries <==> multiset(entries)[e] > 0;
      r
  }

  /** An empty query keeps every entry, in order. */
  lemma {:induction false} FilterByEmptyQueryKeepsAll(entries: seq<Exercise>)
    ensures FilterByName(entries, "") == entries
  {
    if entries != [] {
      IncludesEmpty(Lower(entries[0].name));
      FilterByEmptyQueryKeepsAll(entries[1..]);
    }
  }

  /** Lower-casing the query first does not change what the filter keeps. */
  lemma {:induction false} FilterIgnoresQueryCase(entries: seq<Exercise>, query: string)
    ensures FilterByName(entries, Lower(query)) == FilterByName(entries, query)
  {
    LowerIdempotent(query);
    if entries != [] {
      FilterIgnoresQueryCase(entries[1..], query);
    }
  }

  /** The worked example: "squ" finds "Squat" but not "Bench Press". */
  lemma FallbackExample()
    ensures FilterByName([Exercise(1, "Bench Press"), Exercise(2, "Squat")], "squ")
         == [Exercise(2, "Squat")]
  {
    var bench, squat, query := Exercise(1, "Bench Press"), Exercise(2, "Squat"), "squ";
    ExampleMatches(bench, squat, query);
    FilterKeepsSecondOnly(bench, squat, query);
  }

  lemma ExampleMatches(bench: Exercise, squat: Exercise, query: string)
    requires bench.name == "Bench Press" && squat.name == "Squat" && query == "squ"
    ensures NameMatches(squat, query) && !NameMatches(bench, query)
  {
    assert Lower("squ") == "squ" && Lower("Squat") == "squat";
    assert "squat"[..3] == "squ";
    var lowered := Lower(bench.name);
    forall i | 0 <= i <= |lowered| - 3 ensures lowered[i] != 's' {
      assert lowered[i] == LowerChar(bench.name[i]);
    }
    NotIncludedWithoutFirstChar(lowered, "squ");
  }

  lemma FilterKeepsSecondOnly(a: Exercise, b: Exercise, query: string)
    requires !NameMatches(a, query) && NameMatches(b, query)
    ensures FilterByName([a, b], query) == [b]
  {
    assert [a, b][1..] == [b];
    assert [b][1..] == [];
  }

  /** The reconciliation effect: which directory is visible given the current
      query, the live search result (None while in flight), the cached full
      directory and the per-query result cache. */
  function VisibleDirectory(query: string, live: Option<seq<Exercise>>,
                            directoryCache: Option<seq<Exercise>>,
                            searchCache: map<string, seq<Exercise>>): Option<seq<Exercise>>
  {
    if live.Some? && |live.value| == 0 && |query| > 0 then
      Some(FilteredFallback(directoryCache, query))
    else if |query| == 0 then
      directoryCache
    else
      Some(if query in searchCache then searchCache[query] else [])
  }

  /** A non-empty query whose live search came back empty shows the
      case-insensitive fallback over the cached directory, or nothing when
      no directory is cached. */
  lemma VisibleWhenLiveEmpty(query: string, directoryCache: Option<seq<Exercise>>,
                             searchCache: map<string, seq<Exercise>>)
    requires query != ""
    ensures var v := VisibleDirectory(query, Some([]), directoryCache, searchCache);
      && v.Some?
      && (directoryCache.None? ==> v.value == [])
      && (directoryCache.Some? ==> IsSubsequence(v.value, directoryCache.value))
      && forall e :: e in v.value <==> directoryCache.Some? && e in directoryCache.value && NameMatches(e, query)
  {
  }

  /** An empty query shows the cached directory exactly (possibly undefined),
      whatever the live results and the per-query cache hold. */
  lemma VisibleWhenQueryEmpty(live: Option<seq<Exercise>>, directoryCache: Option<seq<Exercise>>,
                              searchCache: map<string, seq<Exercise>>)
    ensures VisibleDirectory("", live, directoryCache, searchCache) == directoryCache
  {
  }

  /** Otherwise the per-query cache entry for the query is shown, or [] when
      the cache has none; the cached directory plays no part. */
  lemma VisibleFromSearchCache(query: string, live: Option<seq<Exercise>>,
                               directoryCache: Option<seq<Exercise>>,
                               searchCache: map<string, seq<Exercise>>)
    requires query != ""
    requires live.None? || |live.value| > 0
    ensures var v := VisibleDirectory(query, live, directoryCache, searchCache);
      && v.Some?
      && (query in searchCache ==> v.value == searchCache[query])
      && (query !in searchCache ==> v.value == [])
      && forall other: Option<seq<Exercise>> :: VisibleDirectory(query, live, other, searchCache) == v
  {
  }

  /** When the live result is the cached entry for the current query, as the
      query client keeps it, a non-empty result is shown as it is. */
  lemma VisibleShowsConsistentLiveResult(query: string, results: seq<Exercise>,
                                         directoryCache: Option<seq<Exercise>>,
                                         searchCache: map<string, seq<Exercise>>)
    requires query != "" && results != []
    requires query in searchCache && searchCache[query] == results
    ensures VisibleDirectory(query, Some(results), directoryCache, searchCache) == Some(results)
  {
  }

  /** Only an empty query with no cached directory leaves the view undefined. */
  lemma VisibleUndefinedIff(query: string, live: Option<seq<Exercise>>,
                            directoryCache: Option<seq<Exercise>>,
                            searchCache: map<string, seq<Exercise>>)
    ensures VisibleDirectory(query, live, directoryCache, searchCache).None?
        <==> query == "" && directoryCache.None?
  {
  }

  /** The provider's state. The debounce timer is the `pending` slot and
      `Fire` stands for the 280 ms timer expiring; `termParam` is the router's
      `term` query parameter; `directoryCache` and `searchCache` stand for
      the query client's cached directory and per-query search results. */
  class ExerciseProvider {
    var query: string
    var directory: Option<seq<Exercise>>
    var termParam: Option<string>
    var pending: Option<string>
    var filters: seq<string>
    var directoryCache: Option<seq<Exercise>>
    var searchCache: map<string, seq<Exercise>>

    /** The query is always trimmed, and a pending update is trimmed and non-empty. */
    ghost predicate Valid()
      reads this
    {
      && query == Trim(query)
      && (pending.Some? ==> pending.value != "" && pending.value == Trim(pending.value))
    }

    /** A fresh provider: empty query, the visible directory seeded from the
        cached directory, nothing pending, no filters. */
    constructor (directoryCache: Option<seq<Exercise>>, searchCache: map<string, seq<Exercise>>,
                 termParam: Option<string>)
      ensures Valid()
      ensures query == "" && directory == directoryCache && pending == None && filters == []
      ensures this.termParam == termParam
      ensures this.directoryCache == directoryCache && this.searchCache == searchCache
    {
      query := "";
      directory := directoryCache;
      this.termParam := termParam;
      pending := None;
      filters := [];
      this.directoryCache := directoryCache;
      this.searchCache := searchCache;
      TrimBlankIff("");
    }

    /** `update_query`: set the query and mirror it into the route's `term`. */
    method UpdateQuery(q: string)
      requires Valid() && q == Trim(q)
      modifies this
      ensures Valid()
      ensures query == q && termParam == Some(q)
      ensures pending == old(pending) && directory == old(directory) && filters == old(filters)
      ensures directoryCache == old(directoryCache) && searchCache == old(searchCache)
    {
      query := q;
      termParam := Some(q);
    }

    /** `useUpdateSearchQuery`: blank text clears at once and cancels any
        pending update; otherwise the trimmed text is either scheduled
        (replacing what was pending) or applied at once. */
    method Submit(text: string, shouldDebounce: bool)
      requires Valid()
      modifies this
      ensures Valid()
      ensures Trim(text) == "" ==> query == "" && termParam == None && pending == None
      ensures Trim(text) != "" && shouldDebounce ==>
        query == old(query) && termParam == old(termParam) && pending == Some(Trim(text))
      ensures Trim(text) != "" && !shouldDebounce ==>
        query == Trim(text) && termParam == Some(Trim(text)) && pending == old(pending)
      ensures directory == old(directory) && filters == old(filters)
      ensures directoryCache == old(directoryCache) && searchCache == old(searchCache)
    {
      var t := Trim(text);
      TrimIdempotent(text);
      if t == "" {
        query := "";
        termParam := None;
        pending := None;
        return;
      }
      if shouldDebounce {
        pending := Some(t);
      } else {
        UpdateQuery(t);
      }
    }

    /** The debounce timer expires: the last scheduled text is applied once
        and the slot is emptied; with nothing pending nothing happens. */
    method Fire()
      requires Valid()
      modifies this
      ensures Valid()
      ensures pending == None
      ensures old(pending).Some? ==> query == old(pending.value) && termParam == old(pending)
      ensures old(pending).None? ==> query == old(query) && termParam == old(termParam)
      ensures directory == old(directory) && filters == old(filters)
      ensures directoryCache == old(directoryCache) && searchCache == old(searchCache)
    {
      if pending.Some? {
        var q := pending.value;
        pending := None;
        UpdateQuery(q);
      }
    }

    /** The reconciliation effect, run with the live search result for the
        current query; it never reads the stored filters. */
    method Reconcile(live: Option<seq<Exercise>>)
      requires Valid()
      modifies this`directory
      ensures Valid()
      ensures directory == VisibleDirectory(query, live, directoryCache, searchCache)
    {
      directory := VisibleDirectory(query, live, directoryCache, searchCache);
    }

    /** `useUpdateSearchFilters` as written: the setter looks the context
        up with a hook every time it runs. Outside a render there is no
        hook dispatcher, so a call from an event handler throws before
        anything is stored; during a render it fails outside a provider
        and otherwise stores the list. */
    method UpdateSearchFilters(site: CallSite, caller: Option<ExerciseProvider>, newFilters: seq<string>)
      returns (r: Result<(), string>)
      requires Valid()
      modifies this`filters
      ensures Valid()
      ensures site == EventHandler ==> r == Err(HookOutsideRender) && filters == old(filters)
      ensures site == Render && caller.None? ==> r == Err(FiltersOutsideProvider) && filters == old(filters)
      ensures site == Render && caller.Some? ==> r == Ok(()) && filters == newFilters
      ensures query == old(query) && termParam == old(termParam) && pending == old(pending)
      ensures directory == old(directory)
      ensures directoryCache == old(directoryCache) && searchCache == old(searchCache)
    {
      if site == EventHandler {
        return Err(HookOutsideRender);
      }
      if caller.None? {
        return Err(FiltersOutsideProvider);
      }
      filters := newFilters;
      return Ok(());
    }

    /** The filter setter as evidently intended: the context is looked up
        once, at render time, by `UseUpdateSearchFilters`, and the setter
        itself only stores the list. */
    method SetSearchFilters(newFilters: seq<string>)
      requires Valid()
      modifies this`filters
      ensures Valid()
      ensures filters == newFilters
      ensures query == old(query) && termParam == old(termParam) && pending == old(pending)
      ensures directory == old(directory)
      ensures directoryCache == old(directoryCache) && searchCache == old(searchCache)
    {
      filters := newFilters;
    }
  }

  /** Where a hook is called: while a component renders, or later from an
      event handler. */
  datatype CallSite = Render | EventHandler

  /** What React throws for a hook called outside a render. */
  const HookOutsideRender := "Invalid hook call"

  const FiltersOutsideProvider := "useUpdateSearchFilters must be used within a SearchProvider"

  /** The error message the accessor hooks throw outside a provider. */
  function OutsideProvider(hook: string): string {
    hook + " must be used within a ExerciseDirectoryProvider"
  }

  /** `useUpdateSearchQuery`: the provider whose `Submit` the caller invokes. */
  function UseUpdateSearchQuery(context: Option<ExerciseProvider>): (r: Result<ExerciseProvider, string>)
    ensures r.Err? <==> context.None?
    ensures r.Err? ==> r.error == OutsideProvider("useUpdateSearchQuery")
    ensures r.Ok? ==> r.value == context.value
  {
    if context.None? then Err(OutsideProvider("useUpdateSearchQuery")) else Ok(context.value)
  }

  /** `useExerciseDirectory`: the visible directory. */
  function UseExerciseDirectory(context: Option<ExerciseProvider>): (r: Result<Option<seq<Exercise>>, string>)
    reads if context.Some? then {context.value} else {}
    ensures r.Err? <==> context.None?
    ensures r.Err? ==> r.error == OutsideProvider("useExerciseDirectory")
    ensures r.Ok? ==> r.value == context.value.directory
  {
    if context.None? then Err(OutsideProvider("useExerciseDirectory")) else Ok(context.value.directory)
  }

  /** The filter hook as evidently intended, exported beside the other
      accessors: checked at render time, it yields the provider whose
      `SetSearchFilters` the caller invokes later. */
  function UseUpdateSearchFilters(context: Option<ExerciseProvider>): (r: Result<ExerciseProvider, string>)
    ensures r.Err? <==> context.None?
    ensures r.Err? ==> r.error == FiltersOutsideProvider
    ensures r.Ok? ==> r.value == context.value
  {
    if context.None? then Err(FiltersOutsideProvider) else Ok(context.value)
  }

  /** The names the provider module exports; the filter hook is not among them. */
  const Exports: set<string> := {"useUpdateSearchQuery", "useExerciseDirectory", "useSearchQuery", "ExerciseProvider"}

  /** `useSearchQuery`: the current query. */
  function UseSearchQuery(context: Option<ExerciseProvider>): (r: Result<string, string>)
    reads if context.Some? then {context.value} else {}
    ensures r.Err? <==> context.None?
    ensures r.Err? ==> r.error == OutsideProvider("useSearchQuery")
    ensures r.Ok? ==> r.value == context.value.query
  {
    if context.None? then Err(OutsideProvider("useSearchQuery")) else Ok(context.value.query)
  }

  /** Two debounced submissions of the same term followed by the timer give
      exactly one update, to that term; a later blank submission cancels a
      newly scheduled one before the timer fires. */
  method DebounceScenario(p: ExerciseProvider, term: string, other: string)
    requires p.Valid()
    requires term != "" && Trim(term) == term && Trim(other) != ""
    modifies p
  {
    var q0 := p.query;
    p.Submit(term, true);
    p.Submit(term, true);
    assert p.query == q0 && p.pending == Some(term);
    p.Fire();
    assert p.query == term && p.termParam == Some(term) && p.pending == None;
    p.Fire();
    assert p.query == term;
    p.Submit(other, true);
    TrimBlankIff("");
    p.Submit("", true);
    p.Fire();
    assert p.query == "" && p.termParam == None;
  }
}
