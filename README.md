# ExBuddy search, request context and app shell — a Dafny model

ExBuddy is a workout-tracking web application. This project models four of
its parts and proves properties about them:

- **The exercise-directory search provider** (`SearchContext`). It holds
  the current search query, applies or debounces updates to it (280 ms),
  mirrors the query into the route's `term` parameter, and decides which
  exercise list is visible. It has three rules, tried in order:
  - A non-empty query whose live search came back empty shows a
    case-insensitive substring filter of the cached full directory.
  - An empty query shows the cached directory.
  - Any other query shows the cached per-query result, or an empty list.
  The provider also offers accessor hooks that fail outside a provider.
- **The search bar** (`SearchBar`). It keeps an insertion-ordered
  tag → active map for the facet checkboxes. Toggling a tag flips it and
  sends the list of active tags to the provider. The clear button is
  hidden when the query is empty and no filter is active. Checkbox ids
  replace the first space of a tag with `-`.
- **The per-request tRPC context builders** (`RequestContext`). A route is
  public when its `trpc` query value is a string containing "public".
  Public routes get a copy of the options and never look a session up.
  Private routes need a session, or fail with UNAUTHORIZED and a message
  starting `NO_SESSION`.
- **The application shell** (`App`). It maps the route pattern to a page
  title, builds the `<title>` text, and keeps a session latch: the first
  session seen is kept, and a different later session is not adopted.

Supporting modules:

- `Wrappers`: Option and Result.
- `Sequences`: subsequences and distinctness.
- `JsStrings`: the JavaScript string operations the code relies on:
  `includes`, `toLowerCase`, `trim`, `indexOf` and `replace` with a
  one-character pattern.
- `NextAuth`: the session record.

Two behaviours a reader might expect otherwise:

- The third reconciliation rule reads the per-query result cache, not the
  live result. Lemma `VisibleShowsConsistentLiveResult` states when the
  two agree.
- An empty query shows the cached directory exactly as cached, including
  "undefined" when nothing is cached, rather than an empty list.

## Model

| member | source | states |
|---|---|---|
| JsStrings.Includes | src/client/providers/SearchContext.tsx:60 | `includes` as a scan; its meaning is stated by IncludesIffOccurs; a match needs a pattern no longer than the text |
| JsStrings.IncludesIffOccurs | src/server/context.ts:45 | `includes` is true exactly when the pattern occurs at some position |
| JsStrings.Lower | src/client/providers/SearchContext.tsx:60 | `toLowerCase`: same length, each character lower-cased, no upper-case letter left; LowerIdempotent states its idempotence |
| JsStrings.LowerIdempotent | src/client/providers/SearchContext.tsx:60 | lower-casing twice is lower-casing once |
| JsStrings.Trim | src/client/providers/SearchContext.tsx:81-92 | `trim`; its contract is stated by TrimBounds, TrimIsCore, TrimBlankIff and TrimIdempotent |
| JsStrings.TrimBounds | src/client/providers/SearchContext.tsx:81-92 | `trim` keeps the slice between the leading and trailing whitespace runs, whose ends are not whitespace |
| JsStrings.TrimIsCore | src/client/providers/SearchContext.tsx:81-92 | `trim` removes whitespace-only prefix and suffix and leaves a slice whose ends are not whitespace |
| JsStrings.TrimBlankIff | src/client/providers/SearchContext.tsx:81 | text trims to "" exactly when every character is whitespace |
| JsStrings.TrimIdempotent | src/client/providers/SearchContext.tsx:89-92 | trimming trimmed text changes nothing |
| JsStrings.IndexOf | src/components/SearchBar.tsx:119-120 | -1 exactly when the character is absent, else the index of its first occurrence |
| JsStrings.ReplaceFirst | src/components/SearchBar.tsx:119-120 | only the first occurrence is replaced; length and every other character are kept |
| SearchContext.FilterByName | src/client/providers/SearchContext.tsx:59-61 | the result is an ordered subsequence holding exactly the entries whose lower-cased name includes the lower-cased query, each with its multiplicity |
| SearchContext.FilteredFallback | src/client/providers/SearchContext.tsx:59-61 | no cached directory gives []; otherwise an ordered subsequence of it whose members are exactly the matching entries |
| SearchContext.FilterByEmptyQueryKeepsAll | src/client/providers/SearchContext.tsx:60 | the empty query keeps the whole directory in order |
| SearchContext.FilterIgnoresQueryCase | src/client/providers/SearchContext.tsx:60 | the query's letter case does not change the result |
| SearchContext.FallbackExample | src/client/providers/SearchContext.tsx:59-61 | "squ" over [Bench Press, Squat] gives [Squat] |
| SearchContext.ExampleMatches | src/client/providers/SearchContext.tsx:60 | "squ" matches "Squat" and not "Bench Press" |
| SearchContext.VisibleDirectory | src/client/providers/SearchContext.tsx:63-78 | the reconciliation effect's choice; its contract is stated by the five Visible* lemmas below |
| SearchContext.VisibleWhenLiveEmpty | src/client/providers/SearchContext.tsx:65-69 | an empty live result for a non-empty query shows the filtered fallback, [] without a cached directory |
| SearchContext.VisibleWhenQueryEmpty | src/client/providers/SearchContext.tsx:70-73 | an empty query shows the cached directory, whatever the other inputs |
| SearchContext.VisibleFromSearchCache | src/client/providers/SearchContext.tsx:74-76 | otherwise the cached per-query result or [] is shown, independent of the cached directory |
| SearchContext.VisibleShowsConsistentLiveResult | src/client/providers/SearchContext.tsx:63-78 | a non-empty live result that is the cached one is shown as it is |
| SearchContext.VisibleUndefinedIff | src/client/providers/SearchContext.tsx:63-78 | the view is undefined exactly for an empty query with no cached directory |
| SearchContext.ExerciseProvider.constructor | src/client/providers/SearchContext.tsx:42-48 | empty query, directory seeded from the cache, no filters, nothing pending |
| SearchContext.ExerciseProvider.UpdateQuery | src/client/providers/SearchContext.tsx:53-56 | sets the query and the route `term` to the same text; nothing else changes |
| SearchContext.ExerciseProvider.Submit | src/client/providers/SearchContext.tsx:80-94 | blank text clears query and `term` and cancels the pending update; otherwise the trimmed text is scheduled (replacing any pending one) or applied at once; the query stays trimmed |
| SearchContext.ExerciseProvider.Fire | src/client/providers/SearchContext.tsx:57 | the timer applies the last scheduled text once and empties the slot; with nothing pending nothing changes |
| SearchContext.ExerciseProvider.Reconcile | src/client/providers/SearchContext.tsx:63-78 | the visible directory becomes the one the three reconciliation rules select |
| SearchContext.ExerciseProvider.UpdateSearchFilters | src/client/providers/SearchContext.tsx:96-102 | as written: called from an event handler its hook call throws and nothing is stored; during a render it fails outside a provider and otherwise stores the list; nothing else changes |
| SearchContext.ExerciseProvider.SetSearchFilters | src/client/providers/SearchContext.tsx:101 | as intended: stores the list and changes nothing else |
| SearchContext.UseUpdateSearchFilters | src/client/providers/SearchContext.tsx:96-100 | as intended, checked at render: error exactly outside a provider, with the filter hook's message; otherwise the provider |
| SearchContext.UseUpdateSearchQuery | src/client/providers/SearchContext.tsx:20-26 | error exactly outside a provider, with that hook's message; otherwise the provider's updater |
| SearchContext.UseExerciseDirectory | src/client/providers/SearchContext.tsx:27-33 | error exactly outside a provider; otherwise the visible directory |
| SearchContext.UseSearchQuery | src/client/providers/SearchContext.tsx:35-41 | error exactly outside a provider; otherwise the current query |
| SearchBar.Get | src/components/SearchBar.tsx:125 | absent exactly for a key not in the map; a found value is stored with the key |
| SearchBar.GetAt | src/components/SearchBar.tsx:125 | with unique keys, `get` returns the value stored with the key |
| SearchBar.Insert | src/components/SearchBar.tsx:127 | an existing key keeps its place; a new key is appended |
| SearchBar.IsChecked | src/components/SearchBar.tsx:125 | `filters.get(tag) \|\| false`; GetAt and ToggleSpec state what it reads |
| SearchBar.InsertGet | src/components/SearchBar.tsx:127 | after `set` the key reads the new value and every other key reads as before |
| SearchBar.InsertNewKeyAppends | src/components/SearchBar.tsx:127 | inserting an absent key appends one entry |
| SearchBar.InsertKeepsDistinct | src/components/SearchBar.tsx:127 | `set` keeps keys unique |
| SearchBar.FromEntries | src/components/SearchBar.tsx:127 | `new Map(entries)`; FromOwnEntries and ToggleSpec state its contract |
| SearchBar.FromOwnEntries | src/components/SearchBar.tsx:127 | rebuilding a map from its own entries gives the same map |
| SearchBar.Toggle | src/components/SearchBar.tsx:127 | the handler's new map; its contract is ToggleSpec, ToggleKeepsDistinct and ToggleTwice |
| SearchBar.ToggleSpec | src/components/SearchBar.tsx:126-130 | toggling flips the tag (a missing tag becomes true), leaves other tags alone, keeps key order, appends a new tag, keeps keys unique |
| SearchBar.ToggleKeepsDistinct | src/components/SearchBar.tsx:127 | toggling keeps keys unique |
| SearchBar.ToggleTwice | src/components/SearchBar.tsx:127 | toggling twice restores the tag's checked state |
| SearchBar.ActiveKeys | src/components/SearchBar.tsx:128 | the list sent to the provider; its contract is ActiveKeysInOrder and ActiveKeysSpec |
| SearchBar.ActiveKeysInOrder | src/components/SearchBar.tsx:128 | the sent list follows map order and holds exactly the keys stored with true |
| SearchBar.ActiveKeysSpec | src/components/SearchBar.tsx:128 | the sent list has no duplicates and holds exactly the checked tags |
| SearchBar.AreFiltersEmpty | src/components/SearchBar.tsx:53 | `every(v => !v)`; AreFiltersEmptyIff states its contract |
| SearchBar.AreFiltersEmptyIff | src/components/SearchBar.tsx:53 | no filter active exactly when the sent list is empty and exactly when no tag is checked; the empty map qualifies |
| SearchBar.ClearButtonHidden | src/components/SearchBar.tsx:94 | hidden exactly when the query is empty and no tag is active |
| SearchBar.FilterCategory | src/components/SearchBar.tsx:55-62 | the facet heading; FilterCategoryCoversLabels states its contract |
| SearchBar.FilterCategoryCoversLabels | src/components/SearchBar.tsx:10-25 | exactly the declared facet groups have a heading: Mechanics and Equipment |
| SearchBar.CheckboxId | src/components/SearchBar.tsx:119-120 | same length; the first space becomes `-`; every other character is kept |
| SearchBar.CheckboxIdKeepsLaterSpaces | src/components/SearchBar.tsx:119-120 | a space after the first one survives in the id |
| SearchBar.FirstMissing | src/components/SearchBar.tsx:31-33 | none exactly when every hook is provided; otherwise the first hook, in call order, that is not |
| SearchBar.Mount | src/components/SearchBar.tsx:5 | rendering succeeds exactly when the module provides every hook the bar calls; otherwise it throws for a missing one |
| SearchBar.MountAsWrittenFails | src/components/SearchBar.tsx:32 | as written, rendering throws because `useUpdateSearchFilters` is not exported |
| SearchBar.MountWithFiltersHookExported | src/components/SearchBar.tsx:5 | with the filter hook exported, rendering proceeds |
| SearchBar.SearchBarComponent.constructor | src/components/SearchBar.tsx:27-33 | no filters; the input shows the route `term` or "" |
| SearchBar.SearchBarComponent.ClearSearch | src/components/SearchBar.tsx:44-49 | clears query, `term` and any pending update, empties the input, keeps the filters |
| SearchBar.SearchBarComponent.OnTermChange | src/components/SearchBar.tsx:35-42 | debounces on the "all" tab only; blank text clears; the input shows the text |
| SearchBar.SearchBarComponent.OnToggle | src/components/SearchBar.tsx:126-130 | as intended: the map becomes the toggled map and the provider receives its active tags; nothing else changes |
| SearchBar.SearchBarComponent.OnToggleAsWritten | src/components/SearchBar.tsx:126-130 | as written: the setter's hook call throws, so neither the local map nor the provider's list changes |
| SearchBar.SearchBarComponent.OnClearButton | src/components/SearchBar.tsx:90-94 | clears the search and the local map, leaves the provider's list, visible directory and caches alone, and the button is then hidden |
| RequestContext.NoSessionMessageIsTagged | src/server/context.ts:50-55 | the error message starts with `NO_SESSION` |
| RequestContext.IsPublicRoute | src/server/context.ts:45 | the public-route test, also at line 80; PublicRouteIff states its contract |
| RequestContext.PublicRouteIff | src/server/context.ts:45 | public exactly for a string value in which "public" occurs; absent, list and "" values are private |
| RequestContext.DirectoryRouteIsPublic | src/server/context.ts:45 | the path "exercise.public.directory" is public |
| RequestContext.CapitalisedRouteIsPrivate | src/server/context.ts:45 | the match is case-sensitive ("exercise.Public.directory" is private) and a list-wrapped path is private |
| RequestContext.BatchWithPublicPathIsPublic | src/server/context.ts:80 | a comma-joined batch with any public path is public as a whole |
| RequestContext.CreateContextInner | src/server/context.ts:42-62 | succeeds exactly on a public route or with a session, returning the options unchanged; otherwise UNAUTHORIZED with the NO_SESSION message |
| RequestContext.CreateTRPCClientContext | src/server/context.ts:70-102 | a public route returns the options without a session and no lookup; a private route looks the session up exactly once and succeeds exactly when one is found |
| RequestContext.PublicRouteIgnoresSessionLookup | src/server/context.ts:80-85 | on a public route the session source cannot affect the outcome |
| RequestContext.BuildersAgree | src/server/context.ts:42-102 | both builders classify alike, fail alike, and on a private route build the same context |
| App.AppLocation | src/pages/_app.tsx:58-74 | a known route gets its page title; "404" exactly for any other route |
| App.Title | src/pages/_app.tsx:78 | the title text as written; TitleOfPathname states its contract |
| App.TitleOfPathname | src/pages/_app.tsx:78 | a known route is titled "ExBuddy \| <title>", any other "ExBuddyfalse" |
| App.UnknownRouteTitleShowsFalse | src/pages/_app.tsx:78 | the route "/settings" is titled "ExBuddyfalse" |
| App.IntendedTitle | src/pages/_app.tsx:78 | the title starts with "ExBuddy" and is the bare name exactly on a 404 |
| App.IntendedTitleOfPathname | src/pages/_app.tsx:78 | a known route reads "ExBuddy \| <title>", any other "ExBuddy" |
| App.SessionLatch.constructor | src/pages/_app.tsx:41 | the latch starts with the query's first value |
| App.SessionLatch.Memo | src/pages/_app.tsx:42-56 | an empty latch takes the first session; a value loosely equal to the latched one (the same object, or null/undefined against an empty latch) returns the latched one; anything else returns undefined and never replaces a latched session |
| App.RefetchedSessionScenario | src/pages/_app.tsx:45-55 | a session, then null, then a new object with the same fields: the memo yields undefined |

## Left out

- Rendering: markup, CSS classes, `showFilters`, focus and key handlers. These are presentation only.
- The network: the search query, `getQueryData`, `getServerSession` and the session query. They become inputs: the live result, the two caches, a session-lookup function and `AuthData` values.
- The debounce timer is not modelled as time. It is the `pending` slot, and `Fire` stands for the 280 ms expiry.
- A live result that arrives late for an older query is not modelled. `Reconcile` takes the live result for the current query.
- `update_query` is memoised once inside the debounce, so it keeps the router of the first render. The model has a single router, so this stale capture is not represented.
- The stored filter list is never read by the reconciliation, in the code as in the model.
- Console logging is left out.
- `getStaticProps` (_app.tsx:88-107) is left out: it is a non-exported constant of the `_app` module, and the framework never calls it there, so it is dead code.
- SearchContext.ExerciseProvider.Submit: on blank text the code calls `router.replace` with `term: ''` and then deletes `term` from the current query object. `router.replace` is asynchronous, so the running app ends on the route with `?term=`. The model treats the router as synchronous and records only the last write, an absent `term`, so it does not capture the empty `term` left on the route. The same holds for `SearchBar.SearchBarComponent.ClearSearch`.
- RequestContext.CreateTRPCClientContext: the session lookup is a total function. The library call may also reject, and it refreshes the session cookie on the response; neither is modelled.
- React's reference semantics are modelled only where they decide a branch. A session object carries an explicit identity `ref`, and loose `==` compares identities.
- Token refresh and the next-auth configuration (`src/pages/api/auth/[...nextauth].ts`) are not part of this model. Sessions are opaque values.
- The GraphQL schema and the Tailwind configuration are not part of this model.
- JsStrings.Lower: lower-cases ASCII letters only. JavaScript's `toLowerCase` also folds non-ASCII letters.
- JsStrings.Trim: uses a fixed whitespace set (ASCII whitespace, NBSP, U+2028, U+2029, U+FEFF). The remaining Unicode space separators are not included.

## Findings

| source | as written | input that shows it | evidently intended | confidence | as-written member | corrected member |
|---|---|---|---|---|---|---|
| src/components/SearchBar.tsx:32 | the bar imports and calls `useUpdateSearchFilters`, which the provider module does not export | any render of the search bar: calling the missing import throws | the hook exported beside the other accessors | high; not executed | SearchBar.MountAsWrittenFails | SearchBar.MountWithFiltersHookExported |
| src/client/providers/SearchContext.tsx:97 | the filter setter calls `React.useContext` each time it runs, and its only caller is a checkbox change handler | toggling any tag: the hook call outside a render throws before `setFilters(newMap)` | look the context up once at render time; the setter only stores the list | medium; not executed | SearchBar.SearchBarComponent.OnToggleAsWritten | SearchBar.SearchBarComponent.OnToggle |
| src/pages/_app.tsx:78 | `appLocation != '404' && (' \| ' + appLocation)` inside a template literal interpolates the boolean `false` on an unknown route | pathname "/settings" gives the title "ExBuddyfalse" | "ExBuddy" on an unknown route | high; not executed | App.UnknownRouteTitleShowsFalse | App.IntendedTitleOfPathname |
