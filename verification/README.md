# Dashboard projection layer, in Dafny

This project models the projection layer of a retail-media analytics
dashboard. The layer takes flat spreadsheet-style records and computes what
each dashboard tab shows.

- **Slide and section selection.** Every tab keeps the active slides of its own
  tab id and stable-sorts them by `sortOrder`. For each slide it does the same
  with the sections whose `slideId` matches.
- **Section content.** A section's data rows are picked by `sectionId` and
  ordered. The shared renderer orders them by `originalRowIndex`. The
  channel-breakdown and retailer-deep-dives tabs order them by key. The rows
  then become a chart (optional `intro` caption plus named points),
  paragraphs, a titled list, or nothing, depending on `sectionType`.
- **Overlay-label windowing.** In the shared renderer, `overlaylabel` rows
  split a chart's rows into per-metric windows, and a selected metric picks one.
- **The sheets API route.** Raw rows become section and section-data records
  by cell position, with `parseInt(...) || 0` for the sort order. The route
  keeps the `market` tab's sections, sorts them, and semi-joins the data rows
  on their ids. Failures pick a status code.

Everything is a pure function over `seq`s of immutable datatypes. The model
is organised as follows:

- `StableSort` is the one sort, insertion sort over a comparator. It is proved
  to return a permutation of its input, sorted, and stable. It is also proved
  to be the only ordering with those properties.
- `Seqs` holds `filter`, `findIndex` and `find`.
- `Dashboard` holds the records and the rendered structure.
- One module per source component: `Selection`, `SectionRenderer`,
  `KeyOrderedTabs`, `RendererTabs`, `WelcomeTab` and `SheetsRoute`.

`parseFloat` and `parseInt` are parameters of type `string -> Option<real>` and
`string -> Option<int>`, where `None` stands for `NaN`. JavaScript's `||`
fallbacks are written out as explicit cases. `localeCompare` is modelled as
lexicographic order on character codes (`KeyOrder.LexLe`).

Points where the code behaves in a way a reader might not expect:

- Chart values that fail to parse stay in the chart. The shared renderer
  plots them as 0 (`parseFloat(v) || 0`), so its `!isNaN` filter removes
  nothing (`SectionRenderer.ChartPoints`,
  `SectionRenderer.UnparsableValuePlotsAsZero`). The key-ordered tabs keep the
  `NaN` (`KeyOrderedTabs.RenderSection`).
- Keys sort by plain `localeCompare`, with no numeric handling, so `bullet10`
  sorts before `bullet2`.
- The route maps every row, malformed or not, and reads no `isActive` cell.
  The tabs receive `isActive` already typed.
- `DynamicSectionData` does not declare `originalRowIndex`, but the shared
  renderer sorts on it, so `Dashboard.SectionData` carries it as an `int`.

## Model

| member | source | states |
|---|---|---|
| StableSort.SortBy | src/components/tabs/ChannelBreakdownTab.tsx:43 | sorting returns a permutation of its input (same multiset, same length) |
| StableSort.SortBySorted | src/components/tabs/ChannelBreakdownTab.tsx:43 | for a total preorder comparator the result is in ascending order |
| StableSort.SortByStable | src/components/tabs/ChannelBreakdownTab.tsx:43 | every class of elements that compare equal appears in the result in its input order |
| StableSort.SortByCharacterization | src/components/tabs/ChannelBreakdownTab.tsx:43 | for a valid comparator the sort result holds exactly the input's elements, is ascending, and keeps every tie class in input order |
| StableSort.SortByIsTheStableSort | src/components/tabs/ChannelBreakdownTab.tsx:43 | any sorted sequence whose tie classes match the input's is exactly the sort result |
| KeyOrder.LexLeTotal | src/components/tabs/ChannelBreakdownTab.tsx:48 | any two keys are comparable under the key order |
| KeyOrder.LexLeTransitive | src/components/tabs/ChannelBreakdownTab.tsx:48 | the key order is transitive |
| KeyOrder.LexLeAntisymmetric | src/components/tabs/ChannelBreakdownTab.tsx:48 | keys that compare equal are equal |
| Dashboard.RowKeyOrderIsTotalPreorder | src/components/tabs/ChannelBreakdownTab.tsx:48 | the key comparator on section rows is a valid sort comparator |
| Selection.SelectForTab | src/components/tabs/ChannelBreakdownTab.tsx:41-43 | the selected slides are exactly the active slides with the tab id, each as often as in the input, ascending by sortOrder, equal sortOrders in input order |
| Selection.SelectForTabIsUnique | src/components/tabs/ChannelBreakdownTab.tsx:41-43 | a sorted ordering of the tab's active slides that keeps ties in input order is the selection |
| Selection.SectionsForSlide | src/components/tabs/ChannelBreakdownTab.tsx:113-115 | a slide's sections are exactly the active sections with its slideId, ascending by sortOrder, ties in input order |
| SectionRenderer.PresentRows | src/components/shared/SectionRenderer.tsx:19-20 | the rows, as non-null items, are exactly the filter of the input by non-null and section id, in input order; each row occurs as often as its item in the input |
| SectionRenderer.SelectRows | src/components/shared/SectionRenderer.tsx:19-21 | the section's rows are exactly its non-null rows, a permutation of them, ascending by originalRowIndex, ties in input order |
| SectionRenderer.Caption | src/components/shared/SectionRenderer.tsx:33 | the caption is the value of the first intro row, and absent exactly when there is no intro row |
| SectionRenderer.OverlayPositions | src/components/shared/SectionRenderer.tsx:38-40 | the overlay index list holds exactly the positions of overlaylabel rows, strictly ascending |
| SectionRenderer.MetricLabelIndex | src/components/shared/SectionRenderer.tsx:42-44 | the current index is the first overlay row naming the metric, or -1 exactly when none does |
| SectionRenderer.FirstAfter | src/components/shared/SectionRenderer.tsx:46 | the found index is the first listed position above the current index, absent when none is |
| SectionRenderer.WindowEnd | src/components/shared/SectionRenderer.tsx:46 | the window end is the first overlay position after the current index (the reference `NextOverlayFrom`), or the row count when there is none or when that position is 0 and so falsy for `||` |
| SectionRenderer.MetricWindow | src/components/shared/SectionRenderer.tsx:42-48 | the window is never longer than the rows |
| SectionRenderer.WindowOfFoundMetric | src/components/shared/SectionRenderer.tsx:38-48 | for a found metric at c the window is rows[c+1..n), with n the next overlay position or the end, and it holds no overlay row |
| SectionRenderer.WindowOfMissingMetric | src/components/shared/SectionRenderer.tsx:42-48 | for a metric that no overlay row names (findIndex gives -1) the window runs from 0 to the first overlay row, or over all rows when that row is at index 0 |
| SectionRenderer.ParsedOrZero | src/components/shared/SectionRenderer.tsx:55 | a failed parse gives 0, a successful one its value |
| SectionRenderer.ChartPoints | src/components/shared/SectionRenderer.tsx:51-57 | one point per non-intro, non-overlay row, in order, named by the key, never NaN, so the NaN filter drops nothing |
| SectionRenderer.UnparsableValuePlotsAsZero | src/components/shared/SectionRenderer.tsx:55-57 | with rows intro, 2020 "10", 2021 "bad", 2022 "30", the points are 2020→10, 2021→0, 2022→30 |
| SectionRenderer.ChartRows | src/components/shared/SectionRenderer.tsx:36-49 | with a truthy selectedMetric the chart rows are that metric's window; otherwise every row is charted |
| SectionRenderer.Render | src/components/shared/SectionRenderer.tsx:13-116 | missing data or an unknown type gives nothing; text gives one paragraph per row or the notice; list gives the title plus items or the notice; chart gives the first intro caption, the chart points of the charted rows (one per plotted row, named by key, valued `parseFloat || 0`) or the no-data state when there are none, and the insight when non-empty |
| KeyOrderedTabs.KeyOrderedRows | src/components/tabs/ChannelBreakdownTab.tsx:46-48 | a section's rows are a permutation of its rows in the data, in ascending key order, rows with equal keys in input order |
| KeyOrderedTabs.TiesShareKey | src/components/tabs/ChannelBreakdownTab.tsx:48 | rows tied under the key comparator share their key |
| KeyOrderedTabs.RenderSection | src/components/tabs/ChannelBreakdownTab.tsx:45-108 | text and list give one entry per row in key order; chart gives the first intro caption, an always-present bar chart with one point per non-intro row (overlay rows included) and the raw parse as value, and the insight when non-empty; any other type gives nothing |
| KeyOrderedTabs.SlideCard | src/components/tabs/ChannelBreakdownTab.tsx:112-132 | a card shows the slide's title and subtitle, one rendering per selected section in order, and the slide's footer text exactly when it is non-empty |
| KeyOrderedTabs.KeyOrderedTab | src/components/tabs/ChannelBreakdownTab.tsx:110-135 | one card per selected slide, in selection order |
| KeyOrderedTabs.ChannelBreakdownTab | src/components/tabs/ChannelBreakdownTab.tsx:41-43 | one card per active channel-breakdown slide: card i is the card of the i-th slide in ascending sortOrder, ties in input order |
| KeyOrderedTabs.RetailerDeepDivesTab | src/components/tabs/RetailerDeepDivesTab.tsx:6-8 | one card per active retailer-deep-dives slide: card i is the card of the i-th slide in ascending sortOrder, ties in input order |
| RendererTabs.RendererSlideCard | src/components/tabs/AdvertiserCategoriesTab.tsx:20-43 | every selected section goes through the shared renderer in order, with the whole data and no metric; the card shows the slide's footer text exactly when it is non-empty |
| RendererTabs.NoMetricPlotsAllRows | src/components/tabs/AdvertiserCategoriesTab.tsx:31-38 | without a metric a chart section plots every non-intro, non-overlay row, and shows the no-data state exactly when there is none |
| RendererTabs.RendererTab | src/components/tabs/CountryPotentialTab.tsx:12-40 | one card per selected slide, in selection order |
| RendererTabs.AdvertiserCategoriesTab | src/components/tabs/AdvertiserCategoriesTab.tsx:13-15 | one card per active advertiser-categories slide: card i is the card of the i-th slide in ascending sortOrder, ties in input order |
| RendererTabs.CountryPotentialTab | src/components/tabs/CountryPotentialTab.tsx:6-8 | one card per active country-potential slide: card i is the card of the i-th slide in ascending sortOrder, ties in input order |
| RendererTabs.BestInClassTab | src/components/tabs/BestInClassTab.tsx:61-98 | the first selected slide renders its sections and footer; every later slide shows the fixed benchmark content and no footer |
| RendererTabs.BestInClassLaterSlidesIgnoreSections | src/components/tabs/BestInClassTab.tsx:76-94 | cards after the first do not depend on sections or section data |
| WelcomeTab.WelcomeTab | src/components/tabs/WelcomeTab.tsx:20-88 | one card per active welcome slide, in selection order, each with the slide's footer text exactly when it is non-empty |
| WelcomeTab.WelcomeIgnoresGlobalStrings | src/components/tabs/WelcomeTab.tsx:20 | the cards do not depend on globalStrings |
| SheetsRoute.IntOrZero | app/api/sheets/route.ts:77 | a missing cell or failed parse gives 0, a successful parse its value; never an error |
| SheetsRoute.ToSection | app/api/sheets/route.ts:71-78 | id, tab name, chart type, name and description come from cells 0 to 4; sortOrder is the parse of cell 5, or 0 when the cell is missing or does not parse |
| SheetsRoute.ToSectionRoundTrip | app/api/sheets/route.ts:71-78 | writing a section's fields into their cells and reading them back gives the section |
| SheetsRoute.ToDatum | app/api/sheets/route.ts:81-85 | id and label come from cells 0 and 1; the value is the parse of cell 2, NaN when the cell is missing |
| SheetsRoute.ToDatumRoundTrip | app/api/sheets/route.ts:81-85 | writing a datum's fields into their cells and reading them back gives the datum |
| SheetsRoute.RowsOrEmpty | app/api/sheets/route.ts:71 | an absent range gives no rows |
| SheetsRoute.NormalizeSections | app/api/sheets/route.ts:71-78 | one section per row, in row order: no row is dropped |
| SheetsRoute.NormalizeData | app/api/sheets/route.ts:81-85 | one datum per row, in row order: no row is dropped |
| SheetsRoute.MarketSections | app/api/sheets/route.ts:88-90 | exactly the sections whose tab name is market, each as often as in the input, ascending by sortOrder, ties in input order |
| SheetsRoute.MarketSectionData | app/api/sheets/route.ts:93-95 | exactly the data rows whose section id belongs to a market section, as an order-preserving subsequence of the input |
| SheetsRoute.ErrorStatus | app/api/sheets/route.ts:118-120 | the status is the error code when it is non-zero, else 500 |
| SheetsRoute.Get | app/api/sheets/route.ts:47-121 | a missing spreadsheet id gives 500; a failed read gives the error's status with the same code in the body; a successful read gives 200 with the market sections and their data |
| SheetsRoute.GetIgnoresTabs | app/api/sheets/route.ts:55 | the response does not depend on the tabs range |

## Left out

- Google Sheets authentication, client setup and the three network reads (app/api/sheets/route.ts:36-68). These are foreign calls. The read outcome is the `fetched` parameter of `SheetsRoute.Get`.
- The JSON serialisation and the `Cache-Control` header of the response. These are I/O.
- React/JSX markup, CSS classes, the `key` props and `console.log`/`console.error` output. The rendered structure is modelled as plain datatypes: caption, points, paragraphs, items and notices.
- The fixed text of the welcome card and of the later best-in-class cards. It is modelled as the constructors `WelcomeBody` and `FixedBenchmarkBody`.
- The chart components (bar, line and doughnut charts), the mock-data dashboard, the layout, the pages, the Next.js configuration and the tab registry. These are rendering and composition shell.
- IEEE semantics of `parseFloat`/`parseInt` are not modelled: both are uninterpreted parameters. An integer error `code` of `NaN` is not modelled either.
- `sortOrder` is a JavaScript `number` in the source and an `int` here. Fractional, `NaN` and infinite sort orders are not modelled; with `NaN` or an infinity, `a.sortOrder - b.sortOrder` is not a consistent comparator.
- Locale rules of `localeCompare` are not modelled. Keys compare lexicographically by character code.
- SectionRenderer.MetricWindow: its own contract states only that the window is no longer than the rows. Its exact contents are stated by `WindowOfFoundMetric` and `WindowOfMissingMetric`.
