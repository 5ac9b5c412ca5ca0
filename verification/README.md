# Inventory dashboard: reorder rule, search, blur-to-save edits and keyed partial updates

This project models the logic of a small inventory dashboard. The system lists
materials, monthly stock movement ("revenue": entries, "expenses": exits) and
summary stat cards. It flags every material whose balance has fallen to its
reorder point, and it lets the user edit single fields. Each edit is saved when
its field loses focus, as a PATCH request that the server applies to the one
row named by the request's key.

The model is functional. The database is an immutable value with three tables.
Each table is a sequence of rows kept in ascending surrogate-id order, and every
operation returns a new value.

- `Schema` has the three row types (`Material`, `Revenue`, `Stat`) and their
  partial-update records. Each merge overwrites only the fields it is given.
- `KeyedTable` is the one generic primitive behind all three updates:
  `UPDATE … SET patch WHERE key = k RETURNING *`, then the first returned row.
  It is parameterised by the key column and the merge. `Storage` instantiates it
  for materials (key `code`), revenue (key `month`) and stats (key `label`).
  `Storage` also has the three ordered list operations.
- `Routes` has the GET pass-throughs and the PATCH handlers. A handler decodes
  the JSON body, calls storage, and answers 200 with the row or 404 with a
  message.
- `Inventory` holds the client-side rules that both pages share:
  - the reorder rule, `currentBalance <= orderPoint`, which is inclusive;
  - the case-insensitive search over `code` and `description`;
  - the alert count, the total balance, and the lookup of a material by code.
- `Dashboard`, `MaterialsManagement` and `DashboardConfig` model the three
  pages: the stat cards, the alert banner, the row badges, the blur guards and
  the trend buttons.
- `Requests` models the PATCH body each page builds. `JSON.stringify` drops
  members whose value is `undefined`, so a body carries only the edited field.
  `Requests` also models the query-cache invalidation that follows a 2xx
  response.
- `EndToEnd` connects the two sides. A body built by a page decodes on the
  server to exactly the edited fields. A blur on a row of a valid database
  changes that field of that row and nothing else.
- `Sequences`, `Text` and `Optional` are the supporting definitions. They cover
  JavaScript's `filter`, `find`, `some` and `reduce`, plus `toLowerCase`,
  `includes` and the undefined-or-value type.

The value of a number field is taken as an already-parsed integer. Key
uniqueness and ascending ids form the table invariant `Storage.Valid`. Updates
preserve it, and lemmas that need it assume it. The schema that would enforce
it is not part of this model.

Three details of the code as written:

- The server updates every row that matches the key. It returns the first
  updated row, and the model takes "first" to mean table order. With unique keys
  there is exactly one such row.
- The material update accepts every column except the id (`Partial<InsertMaterial>`),
  the business key `code` included. The pages only ever send the balance and the
  order point. The model follows the code, so a patch may rename a code, and
  `Storage.UpdateMaterial` promises a valid table only when the patch carries
  no code or the code it is addressed by.
- The stat field `change` is modelled as nullable, because the page shows it as
  `stat.change || 0`. When `change` is null, leaving the "%" field untouched
  still sends `{ change: 0 }`, because `0 !== null`
  (`DashboardConfig.UntouchedChangeBlur`).

## Model

| member | source | states |
|---|---|---|
| Sequences.Filter | client/src/pages/MaterialsManagement.tsx:35-39 | `filter` keeps, in their original order, exactly the elements that satisfy the predicate, and is never longer than its input |
| Sequences.FilterAppend | client/src/pages/Dashboard.tsx:76-79 | filtering a concatenation is the concatenation of the filtered parts, so kept elements keep their relative order |
| Sequences.FilterLengthCountsIndices | client/src/pages/Dashboard.tsx:33 | the length of a filtered list equals the number of positions whose element satisfies the predicate |
| Sequences.FilterNonEmptyIffSome | client/src/pages/Dashboard.tsx:162 | a filter keeps something exactly when `some` element satisfies the predicate |
| Sequences.FirstIndex | client/src/pages/Dashboard.tsx:25 | `find` yields the first satisfying position, and nothing iff no element satisfies it |
| Sequences.LeftFoldSum | client/src/pages/Dashboard.tsx:35 | the left-to-right `reduce` with `acc + f(x)` from 0 computes the sum of `f` over the list |
| Text.Lower | client/src/pages/MaterialsManagement.tsx:37-38 | `toLowerCase` keeps the length and maps each character on its own: a capital to its small letter, every other character to itself |
| Text.LowerIdempotent | client/src/pages/MaterialsManagement.tsx:37-38 | lower-casing an already lower-cased string changes nothing |
| Text.IncludesEmpty | client/src/pages/MaterialsManagement.tsx:37-38 | every string includes the empty string, so the empty search matches everything |
| Text.IncludesItself | client/src/pages/MaterialsManagement.tsx:37-38 | every string includes itself, so searching for a full code finds it |
| Text.DecimalDenotes | client/src/pages/Dashboard.tsx:27-28 | the text `${n}` of an integer is a minus sign exactly when `n` is negative, then decimal digits with no leading zero whose value is the magnitude of `n` |
| Text.IncludesIffOccurs | client/src/pages/Dashboard.tsx:77-78 | `includes` holds exactly when the needle occurs at some position of the haystack |
| Inventory.SearchFilter | client/src/pages/Dashboard.tsx:76-79 | the filtered list is an order-preserving subsequence of the fetched list, no longer than it, holding exactly the materials that match the query |
| Inventory.MatchesSearchIffOccurs | client/src/pages/MaterialsManagement.tsx:36-39 | a material is kept iff the lower-cased query is a substring of its lower-cased code or of its lower-cased description |
| Inventory.SearchIgnoresCase | client/src/pages/MaterialsManagement.tsx:37-38 | lower-casing the query or the material's code and description never changes whether it is kept |
| Inventory.EmptyQueryKeepsAll | client/src/pages/MaterialsManagement.tsx:36-39 | the empty query keeps every material in the original order |
| Inventory.Alerts | client/src/pages/Dashboard.tsx:171 | the alert list holds exactly the materials whose balance is at or below the order point |
| Inventory.AlertCount | client/src/pages/Dashboard.tsx:33 | "Itens em Alerta" equals the number of positions needing reorder, is at most the number of items, and is positive iff some material needs reorder |
| Inventory.TotalBalanceBounds | client/src/pages/Dashboard.tsx:35 | with non-negative balances, "Saldo Total" is non-negative and at least every single balance |
| Inventory.FindByCode | client/src/pages/Dashboard.tsx:25 | the selected material is the first with the given code; nothing iff no material has it |
| Dashboard.SelectedMaterial | client/src/pages/Dashboard.tsx:25 | no selection while the list is absent or no code is given; otherwise the first material carrying that code, or nothing iff none does |
| Dashboard.DisplayStats | client/src/pages/Dashboard.tsx:27-37 | always four cards, numbered 1 to 4, with change 0 |
| Dashboard.StatusCardFollowsReorderRule | client/src/pages/Dashboard.tsx:30 | the Status card reads "Reposição" with trend down iff balance <= order point, equality included; otherwise "OK" with trend up |
| Dashboard.OverviewFigures | client/src/pages/Dashboard.tsx:33-35 | the overview's alert count is the number of materials needing reorder and at most "Total de Itens" (the list length); "Saldo Total" is the sum of balances; all are 0 for an absent or empty list |
| Dashboard.AlertBanner | client/src/pages/Dashboard.tsx:162-172 | the banner shows iff some material needs reorder, and then announces the number of materials needing reorder |
| Dashboard.BannerAgreesWithAlertCard | client/src/pages/Dashboard.tsx:171 | the banner's number equals the "Itens em Alerta" card, and the banner is hidden iff that card shows 0 |
| Dashboard.TotalRevenue | client/src/pages/Dashboard.tsx:89 | the revenue total is the sum of the revenue column, or 0 when the list is absent |
| MaterialsManagement.VisibleRows | client/src/pages/MaterialsManagement.tsx:112-119 | the rendered rows are the search-filtered materials in order; each row's badge is "Repor" iff balance <= order point and "Estoque OK" otherwise, never both |
| MaterialsManagement.ReporBadgesMatchAlertCount | client/src/pages/MaterialsManagement.tsx:112 | with an empty search the number of "Repor" badges equals the dashboard's alert count |
| MaterialsManagement.BalanceBlur | client/src/pages/MaterialsManagement.tsx:89-93 | a balance blur sends an edit iff the parsed value differs from the row's balance; the edit carries the row's code and only the balance |
| MaterialsManagement.OrderPointBlur | client/src/pages/MaterialsManagement.tsx:103-107 | an order-point blur sends an edit iff the parsed value differs from the row's order point; the edit carries the row's code and only the order point |
| Requests.MaterialRequest | client/src/pages/MaterialsManagement.tsx:21-25 | the request path carries the code; the body has a `currentBalance` or `orderPoint` member exactly when the edit supplies it, with that value, and no other member |
| Requests.RevenueRequest | client/src/pages/DashboardConfig.tsx:24-28 | the request path carries the month; the body holds exactly the supplied `revenue`/`expenses` members |
| Requests.StatRequest | client/src/pages/DashboardConfig.tsx:40-44 | the request path carries the label; the body holds exactly the supplied `value`/`change`/`trend` members |
| Requests.AfterResponse | client/src/pages/MaterialsManagement.tsx:27-31 | a 2xx response marks the list stale; any other status leaves the cache unchanged |
| DashboardConfig.RevenueBlur | client/src/pages/DashboardConfig.tsx:85-90 | a revenue blur sends `{revenue}` only, for the row's month, iff the parsed value differs from the stored revenue |
| DashboardConfig.ExpensesBlur | client/src/pages/DashboardConfig.tsx:99-104 | an expenses blur sends `{expenses}` only, for the row's month, iff the parsed value differs from the stored expenses |
| DashboardConfig.ValueBlur | client/src/pages/DashboardConfig.tsx:142-146 | a value blur compares text and sends `{value}` only iff the text differs |
| DashboardConfig.ChangeShown | client/src/pages/DashboardConfig.tsx:153 | the "%" field starts at the stored change, or 0 when it is null |
| DashboardConfig.ChangeBlur | client/src/pages/DashboardConfig.tsx:155-160 | a change blur sends `{change}` only iff the parsed value is not strictly equal to the stored change |
| DashboardConfig.UntouchedChangeBlur | client/src/pages/DashboardConfig.tsx:153-160 | leaving the "%" field untouched sends nothing when change is set, and sends `{change: 0}` when it is null |
| DashboardConfig.TrendClicks | client/src/pages/DashboardConfig.tsx:125-128 | the three buttons send, unconditionally, the card's label with a trend among up/down/neutral and no other field |
| DashboardConfig.ExactlyOneHighlighted | client/src/pages/DashboardConfig.tsx:129 | exactly the button whose value equals the card's trend is highlighted when that trend is one of the three; none otherwise |
| Schema.MergeMaterial | server/storage.ts:36-37 | `.set(data)` on a material: each column the patch supplies takes the supplied value, each other column and the id keep theirs |
| Schema.MergeRevenue | server/storage.ts:44-45 | `.set(data)` on a month: the supplied revenue/expenses are written; the id, the month and the other figure are kept |
| Schema.MergeStat | server/storage.ts:52-53 | `.set(data)` on a card: the supplied value/change/trend are written; the id, the label and the rest are kept |
| Schema.MergesAreIdempotent | server/storage.ts:36-37 | applying a patch to a row it was already applied to changes nothing, for each of the three tables |
| KeyedTable.SetWhere | server/storage.ts:36-38 | every row with the key is merged with the patch; every other row is kept; the row count is unchanged |
| KeyedTable.UpdateReturning | server/storage.ts:35-41 | returns nothing iff no row has the key, and then the table is unchanged; otherwise returns the post-update image of the first matching row, which is in the table |
| KeyedTable.UpdateIdempotent | server/storage.ts:36-39 | with an idempotent merge, running the same update twice leaves the table as running it once |
| KeyedTable.UpdateReturnsSameRowTwice | server/storage.ts:36-40 | with an idempotent merge that leaves a matching row's key in place, the second run returns the same row as the first |
| KeyedTable.UpdateKeepsIdOrder | server/storage.ts:31-32 | an update whose merge keeps ids keeps the table in ascending id order |
| KeyedTable.UpdateKeepsKeysUnique | server/storage.ts:38 | an update whose merge leaves a matching row's key in place keeps the keys unique |
| Storage.GetMaterials | server/storage.ts:31-33 | the materials listing holds every stored row and nothing else, in ascending id order for a valid database |
| Storage.GetRevenue | server/storage.ts:23-25 | the revenue listing holds every stored row, in ascending id order |
| Storage.GetStats | server/storage.ts:27-29 | the stats listing holds every stored row, in ascending id order |
| Storage.UpdateMaterial | server/storage.ts:35-41 | rows with another code and the other tables are unchanged; matching rows are merged; nothing is returned iff no row has the code, and then nothing changes; the table stays valid when the patch carries no code or the code it is addressed by |
| Storage.UpdateRevenue | server/storage.ts:43-49 | the same merge, frame and not-found properties keyed by month; validity is preserved |
| Storage.UpdateStat | server/storage.ts:51-57 | the same merge, frame and not-found properties keyed by label; validity is preserved |
| Storage.UpdateMaterialMergesOnlySuppliedFields | server/storage.ts:36-37 | on the matched row each supplied column takes the supplied value, every other column and the id keep theirs |
| Storage.UpdateRevenueMergesOnlySuppliedFields | server/storage.ts:44-45 | on the matched month the supplied revenue/expenses are written; id, month and the other field are kept |
| Storage.UpdateStatMergesOnlySuppliedFields | server/storage.ts:52-53 | on the matched card the supplied value/change/trend are written; id, label and the rest are kept |
| Storage.UpdateMaterialReturnsStoredRow | server/storage.ts:39-40 | in a valid table the returned row is the stored post-update row with that code |
| Storage.UpdateRevenueReturnsStoredRow | server/storage.ts:47-48 | in a valid table the returned row is the stored post-update row for that month |
| Storage.UpdateStatReturnsStoredRow | server/storage.ts:55-56 | in a valid table the returned row is the stored post-update card with that label |
| Storage.UpdateMaterialIdempotent | server/storage.ts:35-41 | applying the same material update twice leaves the same database as once, and returns the same row when the patch carries no code or the code it is addressed by |
| Storage.UpdateRevenueIdempotent | server/storage.ts:43-49 | applying the same revenue update twice leaves the same database and returns the same row as once |
| Storage.UpdateStatIdempotent | server/storage.ts:51-57 | applying the same stat update twice leaves the same database and returns the same row as once |
| Routes.ListMaterials | server/routes.ts:20-23 | GET materials answers 200 with the stored material table itself, unfiltered and in stored order, which is ascending by id for a valid database |
| Routes.ListRevenue | server/routes.ts:10-13 | GET revenue answers 200 with the stored revenue table itself, ascending by id for a valid database |
| Routes.ListStats | server/routes.ts:15-18 | GET stats answers 200 with the stored stat cards themselves, ascending by id for a valid database |
| Routes.Respond | server/routes.ts:27-28 | no row from storage answers 404 with the route's message; a row answers 200 with that row as the body |
| Routes.PatchMaterial | server/routes.ts:25-29 | 404 with "Material não encontrado" and no write iff no row has the code; otherwise 200 with the row storage returned |
| Routes.PatchRevenue | server/routes.ts:31-35 | 404 with "Mês não encontrado" and no write iff no row has the month; otherwise 200 with the updated row |
| Routes.PatchStat | server/routes.ts:37-41 | 404 with "Stat não encontrado" and no write iff no card has the label; otherwise 200 with the updated card |
| Routes.NotFoundPatchKeepsListings | server/routes.ts:25-29 | a PATCH for an unknown code answers 404 and every later GET returns what it returned before |
| EndToEnd.MaterialBodyRoundTrip | client/src/pages/MaterialsManagement.tsx:25 | the material body decodes on the server to a patch of exactly the numeric fields the page supplied |
| EndToEnd.RevenueBodyRoundTrip | client/src/pages/DashboardConfig.tsx:28 | the revenue body decodes to exactly the supplied revenue/expenses |
| EndToEnd.StatBodyRoundTrip | client/src/pages/DashboardConfig.tsx:44 | the stat body decodes to exactly the supplied value/change/trend |
| EndToEnd.MaterialEditPersists | client/src/pages/Dashboard.tsx:60-74 | an edit for an existing code rewrites only the supplied fields of that one row, answers 200 with it, keeps the database valid and marks the materials list stale |
| EndToEnd.BalanceBlurPersists | client/src/pages/Dashboard.tsx:354-358 | a balance blur sends nothing iff unchanged; otherwise the body is exactly `{currentBalance}` and only that row's balance changes |
| EndToEnd.OrderPointBlurPersists | client/src/pages/Dashboard.tsx:368-372 | an order-point blur sends nothing iff unchanged; otherwise the body is exactly `{orderPoint}` and only that row's order point changes |
| EndToEnd.RevenueEditPersists | client/src/pages/DashboardConfig.tsx:23-37 | a revenue edit for an existing month rewrites only the supplied fields of that row, answers 200 and marks the revenue list stale |
| EndToEnd.RevenueBlurPersists | client/src/pages/DashboardConfig.tsx:85-90 | a revenue blur changes only that month's revenue, iff the number changed |
| EndToEnd.ExpensesBlurPersists | client/src/pages/DashboardConfig.tsx:99-104 | an expenses blur changes only that month's expenses, iff the number changed |
| EndToEnd.StatEditPersists | client/src/pages/DashboardConfig.tsx:39-53 | a stat edit for an existing label rewrites only the supplied fields of that card, answers 200 and marks the stats list stale |
| EndToEnd.ValueBlurPersists | client/src/pages/DashboardConfig.tsx:142-146 | a value blur changes only that card's value, iff the text changed |
| EndToEnd.ChangeBlurPersists | client/src/pages/DashboardConfig.tsx:155-160 | a change blur changes only that card's change, iff the number differs from the stored one |
| EndToEnd.TrendClickPersists | client/src/pages/DashboardConfig.tsx:125-128 | a trend click stores that button's trend (one of up/down/neutral) and leaves value and change as they were |
| EndToEnd.MaterialEditForMissingCode | client/src/pages/MaterialsManagement.tsx:22-31 | an edit whose code names no row is answered 404, writes nothing and leaves the cache unchanged |
| WorkedCases.SearchExample | client/src/pages/MaterialsManagement.tsx:36-39 | with materials M-102 "Bolt" and M-405 "Washer", the query "bol" keeps exactly M-102 |
| WorkedCases.EmptySearchExample | client/src/pages/MaterialsManagement.tsx:36-39 | with the same two materials, the empty query keeps both, in order |

## Left out

- Rendering, animation, charts, styling, icons and toasts. These are UI effects with no logic to state.
- The hard-coded display data: the pie-chart figures and the fixed dashboard texts.
- The dashboard's title and subtitle strings. The navigation tab set by clicking the alert banner is left out too. Both are constant UI selections.
- `parseInt` and NaN. Each blur handler takes the parsed value as an integer. In the code as written, non-numeric input parses to NaN, and `NaN !== x` always holds, so such input would still be sent. That case is not modelled.
- `encodeURIComponent` on the client and path-parameter decoding on the server. A request carries its key undecoded.
- The react-query cache mechanics and the HTTP transport. Only "a 2xx response marks the list stale" is modelled.
- The persistence engine (drizzle ORM and Postgres). It is replaced by the abstract ordered, keyed table. The id order of a listing is a table invariant, not a sort performed at read time.
- Request bodies that no page builds. The server does not validate a body: `server/routes.ts` passes `req.body` to storage, which hands it to `.set(data)`. A body naming other columns, the id or the key among them, or carrying values of the wrong JSON type, would be written as given. The model's decoders (`Routes.DecodeMaterialPatch`, `Routes.DecodeRevenuePatch`, `Routes.DecodeStatPatch`) read only the columns storage declares, with their declared types, so such bodies are not modelled. The validity that `Storage.UpdateRevenue` and `Storage.UpdateStat` preserve is therefore a property of those typed patches, not of arbitrary bodies.
- Storage.GetMaterials: ascending id order is promised only for a valid database, because it comes from the table invariant rather than from a sort (the same holds for `Storage.GetRevenue` and `Storage.GetStats`).
- Key uniqueness and ascending ids. They are an invariant (`Storage.Valid`), because the schema that enforces them is not part of this model.
- JavaScript numbers are floating point. The model uses unbounded integers, so precision loss in very large sums is not modelled.
- `toLowerCase` is modelled for ASCII letters and the Latin-1 capitals only. Other Unicode case mappings are left out.
- Concurrent and interleaved PATCH requests (last write wins). Each request is applied atomically, one at a time.
- Rendering gates on the dashboard. The page shows only a spinner while revenue or stats are loading (`client/src/pages/Dashboard.tsx:81-87`), and the stat cards appear only on the overview tab (line 178). `Dashboard.AlertBanner` and `Dashboard.DisplayStats` state what is shown once those gates are passed.
- Client routing (`client/src/App.tsx`). It only supplies the optional material code that `Dashboard.SelectedMaterial` takes as a parameter.
