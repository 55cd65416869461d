# Deals toolbar: board/pipeline selection and filters

This project models the container of the deals page toolbar (`MainActionBar`). It does two things:

- **Board and pipeline selection.** On every render pass the container decides where the current
  board and pipeline come from. The sources are the URL query (`id`, `pipelineId`), the two
  local-storage slots, and the server's "last used board". The pass then writes storage, redirects
  the URL, or resets and navigates away. Otherwise it resolves a board and pipeline for the toolbar.
- **Filters.** These callbacks edit the URL query: a single date-filter slot (`nextDay`,
  `nextWeek`, `nextMonth`, `overdue`, `noCloseDate`), entity filters set or cleared by key, and a
  "clear all filters" action over the common filter keys.

Modules:

- `Wrappers` defines `Option`.
- `Seqs` finds the first matching element, as `Array.prototype.find` does and as a `for` loop that
  returns at its first hit does.
- `QueryParams` defines parsed query values (a string or an array), JavaScript truthiness, and the
  string form that local storage keeps.
- `Router` gives the routing helpers' assumed effect on the query map.
  `setParams(h, q)` merges `q` into the current query.
  `replaceParam(h, all, q)` sets the query to `all` merged with `q`.
  `removeParams(h, ...keys)` deletes the keys.
- `Filters` holds the filter key lists, the query after each filter operation, and the lemmas
  about them.
- `Selection` holds one render pass as pure functions. `Decide` gives the decision and `After`
  gives the browser state afterwards. `Wired` states the query wiring's skip rules: the last-board
  query runs exactly when the URL has no board id, and the detail query exactly when it has one.
  Every member of the pass takes `Wired` as a precondition.
- `MainActionBar` holds the class `Main`. Its fields are the URL query, the two storage slots and a
  requested navigation. Its methods carry out the pass and the callbacks step by step, and each
  method is proved equal to the pure function that specifies it.

Truthiness follows the source. A missing key and an empty string count as absent. An array value
is always present. A storage slot that was never set and one set to `""` are both `""`.

Behaviour of the code a reader might not expect:

- When the URL's `pipelineId` names no pipeline of the board, the code leaves the current pipeline
  empty. It does not fall back to the first pipeline (`ResolvedPipeline`, `PipelineFromUrl`).
- While the boards list is loading, nothing is persisted, even when the URL has both ids
  (`BoardsLoadingIsInert`).
- After a date filter is selected, the date slot holds only that filter if it held at most one
  date filter before. A query that already holds two date filters keeps one of them beside the
  new one (`TwoDateFiltersSurvive`).
- A URL with a `pipelineId` and no `id` never resolves. The detail query is skipped without a board
  id, so such a pass redirects or renders nothing.

## Model

| member | source | states |
|---|---|---|
| `Seqs.FirstIndex` | src/modules/deals/containers/MainActionBar.tsx:68-74 | the index found is the first element satisfying the test; no earlier element satisfies it; the length of the sequence means none does |
| `Router.Merge` | src/modules/deals/containers/MainActionBar.tsx:72-81 | after `setParams`/`replaceParam`, the keys are those of the base plus those of the query; query keys take the query's values and every other key keeps its value |
| `Router.Remove` | src/modules/deals/containers/MainActionBar.tsx:83-101 | after `removeParams`, exactly the named keys are gone and every remaining key keeps its value |
| `Filters.Cleared` | src/modules/deals/containers/MainActionBar.tsx:99-101 | after `clearFilter` no common filter key is left, and every non-filter key is unchanged |
| `Filters.FilterKeys` | src/modules/deals/containers/MainActionBar.tsx:38-52 | the five date filters are all common filters; the common filters are nine distinct keys: the four entity filters and the five date filters |
| `Filters.DateFilterSelected` | src/modules/deals/containers/MainActionBar.tsx:62-77 | after `onDateFilterSelect(name, value)`, `name` holds `value`, no key other than `name` is added, and only date filters can be lost |
| `Filters.DateFilterSelectFrame` | src/modules/deals/containers/MainActionBar.tsx:62-77 | after `onDateFilterSelect(name, value)`, `name` holds `value`; every key that is neither `name` nor a date filter is unchanged |
| `Filters.DateFilterSelectRemovesFirst` | src/modules/deals/containers/MainActionBar.tsx:67-74 | exactly the first date filter in the scan order disappears, unless it is `name`; no other key is lost, and every key other than `name` and that filter keeps its value, including later date filters |
| `Filters.DateFilterSelectExclusive` | src/modules/deals/containers/MainActionBar.tsx:62-77 | if the query held at most one date filter and `name` is a date filter, afterwards `name` is the only date filter |
| `Filters.TwoDateFiltersSurvive` | src/modules/deals/containers/MainActionBar.tsx:67-74 | for every query holding exactly two date filters, selecting a third date filter leaves two date filters, because only the first one scanned is deleted: exclusivity needs the precondition above |
| `Filters.SelectThenClear` | src/modules/deals/containers/MainActionBar.tsx:79-85 | selecting a value for a filter key makes the query filtered; clearing all filters undoes that; clearing that key after selecting it gives the same result as clearing it directly |
| `Filters.FilteredIffClearChanges` | src/modules/deals/containers/MainActionBar.tsx:87-101 | the query is filtered exactly when `clearFilter` would change it |
| `Selection.Decide` | src/modules/deals/containers/MainActionBar.tsx:103-205 | the placeholder appears exactly while the boards list loads, and the spinner only while the detail or last-board query is pending; a URL board id whose detail query resolved to a board always shows that board with `CurrentPipeline` of the URL's `pipelineId`; with no URL board id, nothing stored and no last board with pipelines, the pass renders nothing; once the boards list has loaded, a pending detail or last-board query gives the spinner; a redirect, reset, empty render or resolved board happens only when neither is pending; a redirect happens only without a board id in the URL; a reset or a resolved board needs a board id and a finished detail query; the resolved board is the detail result; rendering nothing means no URL board id and no stored board |
| `Selection.Wired` | src/modules/deals/containers/MainActionBar.tsx:217-232 | the skip rules: the last-board query runs exactly when the URL has no board id and the detail query exactly when it has one, so exactly one of the two runs |
| `Selection.CurrentPipeline` | src/modules/deals/containers/MainActionBar.tsx:183-186 | the chosen pipeline belongs to the board. With a URL `pipelineId` it has that id, and there is none only when no pipeline has it. Without one there is none only when the list is empty or missing |
| `Selection.After` | src/modules/deals/containers/MainActionBar.tsx:124-177 | a pass changes the URL only when it redirects and navigates only when it resets; it changes storage only when it persists the URL pair or resets |
| `Selection.BoardsLoadingIsInert` | src/modules/deals/containers/MainActionBar.tsx:114-116 | while the boards list loads, the pass shows the placeholder and changes no state |
| `Selection.UrlSelectionIsPersisted` | src/modules/deals/containers/MainActionBar.tsx:124-136 | with both ids in the URL, storage receives exactly those values, also while the detail query is still loading (spinner); only a reset in the same pass overwrites them |
| `Selection.StorageWinsOverLastBoard` | src/modules/deals/containers/MainActionBar.tsx:141-150 | with no URL board id and a stored board, the pass redirects to the stored pair whatever the last used board is; it changes nothing but the URL |
| `Selection.LastBoardRedirect` | src/modules/deals/containers/MainActionBar.tsx:152-168 | with no URL board id, nothing stored and a last board with pipelines, the URL takes that board and its first pipeline; storage is untouched |
| `Selection.InvalidBoardResets` | src/modules/deals/containers/MainActionBar.tsx:170-177 | a URL board id that the detail query does not resolve clears both storage slots and navigates to `/deal/board`, leaving the URL query as it was |
| `Selection.ResolvedPipeline` | src/modules/deals/containers/MainActionBar.tsx:179-186 | a resolved pass shows the detail board, and its pipeline is chosen as follows. With a URL `pipelineId` it is the first pipeline with that id, or none when no pipeline has it. Without one it is the first pipeline, or none for an empty or missing list. The URL and the navigation do not change |
| `Selection.RedirectSettles` | src/modules/deals/containers/MainActionBar.tsx:141-168 | after a redirect to a non-empty board id, the next pass does not redirect again; with a non-empty pipeline id it persists exactly the redirected pair unless the board is invalid |
| `Selection.PipelineFromUrl` | src/modules/deals/containers/MainActionBar.tsx:183-186 | worked passes: `pipelineId` p2 on a board with p1 and p2 resolves to p2 and persists (b, p2); an unknown `pipelineId` resolves to no pipeline |
| `MainActionBar.Main.Render` | src/modules/deals/containers/MainActionBar.tsx:103-205 | the in-place pass returns `Decide` of the state before the pass and leaves the state `After` gives |
| `MainActionBar.Main.OnDateFilterSelect` | src/modules/deals/containers/MainActionBar.tsx:62-77 | the scan-and-delete loop leaves the query that `DateFilterSelected` gives |
| `MainActionBar.Main.OnSelect` | src/modules/deals/containers/MainActionBar.tsx:79-81 | `name` holds the selected values; every other key keeps its value and no key is lost |
| `MainActionBar.Main.OnClear` | src/modules/deals/containers/MainActionBar.tsx:83-85 | exactly `name` is removed; every remaining key keeps its value |
| `MainActionBar.Main.IsFiltered` | src/modules/deals/containers/MainActionBar.tsx:87-97 | the early-return scan is proved equal to the reference definition `Filters.Filtered`: true exactly when some query key is a common filter key |
| `MainActionBar.Main.ClearFilter` | src/modules/deals/containers/MainActionBar.tsx:99-101 | the query becomes `Cleared` of the old one, so it is not filtered afterwards |

## Left out

- `onSearch` and the product list are plain pass-throughs to `setParams` and to the toolbar.
- The rendered components (`PageHeader`, `Spinner`, the toolbar) and their props are reduced to the `Decision` values. The boards list handed to the toolbar is not modelled.
- The GraphQL queries, `compose`/`graphql`/`withRouter`/`withProps` wiring and the query strings are not modelled. Only the `skip` rules remain, as `Selection.Wired`.
- The query-string parser is not part of this model. The order in which `for ... in` visits the parsed keys is a parameter, `order`, which must list exactly the keys of the query.
- The routing helpers' implementations are not part of this model. Their assumed contracts are in `Router`, and the pagination reset of `setParams(..., true)` is not modelled.
- `localStorage` is modelled as two string fields and `window.location.href` as a recorded navigation target. `getItem` returning `null` is not told apart from `""`.
- The storage key constants come from a constants module that is not part of this model. The model names the slots only by role.
