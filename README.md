# Plant selection screen controller

A Dafny model of the state logic of the plant selection screen of the
plantmanager mobile app (`src/pages/PlantSelect.tsx`). The screen keeps
seven state cells: the environment buttons, the fetched plants, the shown
(filtered) plants, the selected environment key, the initial-loading flag,
the page counter and the loading-more flag. Three handlers update them:

- selecting an environment filters the fetched plants on the client;
- the list's end-reached callback advances the page counter;
- a settled plants request merges its page into both lists.

A fourth step builds the environment button list by putting a synthetic
`{key: "all", title: "Todos"}` entry in front of the fetched environments.

Files:

- `wrappers.dfy` (module `Wrappers`): `Option` for a response body that may be
  absent, and `Response` for a request that either threw or returned.
- `catalog.dfy` (module `PlantCatalog`): the `Plant` and `Environment`
  records, and pure functions for the filter, the page merge and the
  environment list, with the lemmas about them.
- `plant_select.dfy` (module `PlantSelect`): the class `PlantSelectScreen`,
  whose fields are the state cells and whose methods are the handlers. It
  also has three client methods that walk through the screen.

The class invariant `Valid()` says two things. The page counter is at
least 1. The shown plants are an order-preserving subsequence of the
fetched plants. Every handler keeps it.

Network requests are not modelled. Their outcomes are parameters: the
page number a plants request was made for, and a `Response` value. A
`Response` is `Threw` for the `catch` branch, `Returned(None)` for an
absent body, and `Returned(Some(data))` for a list. An empty list is a real
page (`Some([])`), because an empty array is truthy in JavaScript.

Three behaviours of the code are worth knowing, and the model keeps them:

- The shown list is not re-filtered when a page arrives. A later page is
  appended to it unfiltered (`src/pages/PlantSelect.tsx:80`), and a page-1
  response replaces it with the whole page (`src/pages/PlantSelect.tsx:83`),
  whatever environment is selected. A load-more request carries the page
  value from before the increment (`src/pages/PlantSelect.tsx:65-66,73`), so
  the first load-more re-requests page 1 and takes the replacing branch.
  `MergeKeepsSelection` and `MergeBreaksSelection` together show that,
  when the shown list was the filter of the full list before the page
  arrived (a page-1 response needs no such condition), the merged shown
  list equals the filter of the merged full list exactly when the key is
  `"all"` or every plant of the page lists the key.
  `StaleFirstLoadMore` and `SecondPageUnfiltered` walk through both cases.
  What always holds is the invariant in `Valid()`.
- The `loading` flag is not only an initial state. A plants request that
  returns no body sets it back to true, even after pages have loaded
  (`src/pages/PlantSelect.tsx:75-76`).
- The environment list changes only on a successful environment request
  (`src/pages/PlantSelect.tsx:112-118`). A failure keeps the list as it
  was (`src/pages/PlantSelect.tsx:122-124`), which is empty only before
  the first success. A response with no body is a failure too: spreading
  `undefined` throws inside the same `try`.

## Model

| member | source | states |
|---|---|---|
| PlantCatalog.FilterByEnvironment | src/pages/PlantSelect.tsx:53-55 | the filtered list is no longer than the input; every kept plant lists the key; every kept plant comes from the input; no plant that lists the key is dropped |
| PlantCatalog.FilterIsSubsequence | src/pages/PlantSelect.tsx:53-55 | the filter keeps the original order: its result is a subsequence of the input |
| PlantCatalog.FilterCount | src/pages/PlantSelect.tsx:53-55 | a plant that lists the key is kept as many times as it occurs; any other plant occurs zero times |
| PlantCatalog.FilterConcat | src/pages/PlantSelect.tsx:53-55 | filtering a concatenation is the concatenation of the filtered parts |
| PlantCatalog.FilterKeepsAllQualifying | src/pages/PlantSelect.tsx:53-55 | when every plant lists the key, the filter returns the list unchanged |
| PlantCatalog.Visible | src/pages/PlantSelect.tsx:50-57 | for the key `"all"`, the shown list is the full list; for any other key, every shown plant lists that key and every plant that lists the key is shown; every shown plant comes from the full list |
| PlantCatalog.VisibleIsSubsequence | src/pages/PlantSelect.tsx:47-57 | for any selected key, the shown list is an order-preserving subsequence of the full list |
| PlantCatalog.MergePage | src/pages/PlantSelect.tsx:78-84 | for a page number above 1, the old list is a prefix and the page follows it; otherwise the result is the page alone |
| PlantCatalog.LoadLaterPages | src/pages/PlantSelect.tsx:78-80 | pages numbered from 2 on, arriving in order, append their concatenation to the current list |
| PlantCatalog.LoadPagesFromFirst | src/pages/PlantSelect.tsx:78-84 | pages 1..n arriving in order leave exactly their concatenation, whatever the list held before |
| PlantCatalog.MergeKeepsSelection | src/pages/PlantSelect.tsx:78-84 | for any page number, merging an unfiltered page into the filter of the full list equals filtering the merged full list, when the key is `"all"` or every plant of the page lists the key |
| PlantCatalog.MergeBreaksSelection | src/pages/PlantSelect.tsx:78-84 | for any page number, when one plant of the page lacks a non-`"all"` key, merging the page into the filter of the full list differs from filtering the merged full list |
| PlantCatalog.WithAllEntry | src/pages/PlantSelect.tsx:112-118 | the environment list is one longer than the fetched list; its first entry has key `"all"` and title `"Todos"`; the fetched entries follow in order |
| PlantSelect.PlantSelectScreen.constructor | src/pages/PlantSelect.tsx:38-44 | initial state: empty lists, selection `"all"`, loading true, page 1, loading-more false |
| PlantSelect.PlantSelectScreen.SelectEnvironment | src/pages/PlantSelect.tsx:47-58 | records the key; the shown list becomes the full list for `"all"` and the filter otherwise; the full list, page and both loading flags are unchanged |
| PlantSelect.PlantSelectScreen.FetchMore | src/pages/PlantSelect.tsx:60-73 | a request is issued exactly when the distance is at least 1, and it carries the page value from before the increment; below 1 nothing changes; otherwise loading-more is set and the page goes up by exactly 1; the page never decreases |
| PlantSelect.PlantSelectScreen.ApplyPlantsResponse | src/pages/PlantSelect.tsx:69-94 | a throw changes nothing; an absent body sets loading and changes nothing else; a page is merged into both lists as `MergePage` says and clears both loading flags; the page counter is unchanged |
| PlantSelect.PlantSelectScreen.ApplyEnvironmentsResponse | src/pages/PlantSelect.tsx:107-125 | a returned list becomes `WithAllEntry` of it; a throw or an absent body leaves the environment list as it was; nothing else changes |
| PlantSelect.IndoorThenAll | src/pages/PlantSelect.tsx:47-57 | with plants 1 (indoor), 2 (outdoor) and 3 (both), selecting `"indoor"` shows 1 and 3 in order, and selecting `"all"` afterwards shows all three; the button list is the `"all"` entry followed by the two fetched environments in order |
| PlantSelect.StaleFirstLoadMore | src/pages/PlantSelect.tsx:60-84 | with `"indoor"` selected, the first load-more requests page 1, and its response replaces the shown list with the whole page, outdoor plant included, although the filter of the full list would hide it |
| PlantSelect.SecondPageUnfiltered | src/pages/PlantSelect.tsx:60-80 | with `"indoor"` selected, the second load-more requests page 2, and its outdoor plant is appended to the shown list, although the filter of the full list would hide it |

## Left out

- Rendering, styling, the `FlatList` and `ActivityIndicator` props, and the `StyleSheet` (`src/pages/PlantSelect.tsx:129-225`): user interface, not logic.
- `handlePlantSelect` (`src/pages/PlantSelect.tsx:96-98`): a call into the navigation library with nothing to state about the screen's state.
- The requests themselves (`api.get`, the URLs with sort order and page size 8) and `console.log`: network and console I/O. Their outcomes are method parameters.
- React hook semantics: `useEffect` scheduling, batching of state updates, and the order in which the two mount-time requests settle. Each handler is modelled as one atomic step; callers choose the order.
- PlantSelect.PlantSelectScreen.FetchMore: the page the request carries is the counter before this call. In the source it is the value captured at the last render; the two agree when the screen renders between load-more events, and the model assumes it does.
- PlantSelect.PlantSelectScreen.FetchMore: the distance is a `real`, so a JavaScript `NaN` distance (for which `distance < 1` is false) is not modelled.
- `src/components/Header.tsx`: its only logic reads one string from device storage and defaults it to `""` (`src/components/Header.tsx:20-21`). That is device I/O around a trivial default.
