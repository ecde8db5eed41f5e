# Finanzas ledger model

This project is a Dafny model of the ledger core of *finanzas*, an Ionic/Angular personal-finance app. Users record incomes, expenses and pending payments (`pago_pendiente`) in a Firestore `movements` collection. The app then views that collection in several ways.

What is modelled:

- **The movement record and the store** (`Movements`, `MovementsService`). The `movements` collection is a class holding a map from document id to movement. On it the model has:
  - `addMovement` with its pending-payment defaults;
  - the field-selective `updateMovement`, where `updateDoc` merges the written fields and fails on a missing document;
  - `deleteMovement`;
  - the one-way `marcarPagoComoHecho` transition;
  - the pending-payments query, with Firestore's ascending order on its due dates (`FirestoreOrder`).
- **The service summary** (`FinancialSummary`): the income and expense totals, the balance, and the `resumenMensual` dictionary from month to totals.
- **The four date dispatches** (`Dates`). They differ in check order, so each is its own function. Lemmas state where they agree and where they do not.
- **The dashboard** (`Dashboard`):
  - the figures;
  - the category pie, with labels in first-seen order and magnitudes of every type;
  - the 12-bucket bar series;
  - the chart colours;
  - the exported sheet rows.
- **The transactions page** (`Transactions`):
  - the type/category filter;
  - the newest-first sort, done in place on the emitted array;
  - the category display names and the track-by key;
  - the add, edit and delete handlers.
- **The pending-payments page and its edit modal** (`PendingPayments`, `EditPendingPayment`).
- **The two independent theme switches** (`Theme`, `App`). They share a `Browser` holding `localStorage` and the body class list.
- **The login and register form logic** (`Login`, `Register`).

Behaviour the model makes explicit:

- The bar series counts every non-income movement as spending, pending payments included. Both totals leave pending payments out (`Dashboard.SeriesSpendingAddsUp`, `Dashboard.PendingPaymentSkewsSeries`).
- Dates that cannot be read are handled differently by each dispatch:
  - A date of `null` or `undefined` makes the dashboard dispatch throw. The chart update then stops after the pie.
  - A raw string or number gives an Invalid Date, whose `+=` lands outside the 12 buckets.
  - A time value beyond ±8.64e15 ms, such as `seconds = 9e12`, gives an Invalid Date. It is then filed under the NaN month key and cannot be turned into ISO text.
  - On the transactions page, `seconds = 0` is falsy, so the object falls through to `new Date(obj)` and becomes an Invalid Date (`Dates.ZeroSecondsFallsThrough`).
- The edit alert checks the untrimmed description. A description made only of blanks is therefore accepted and stored as `""` (`Transactions.BlankDescriptionAccepted`).
- After one edit through the modal, a pending payment's `dueDate` is stored as the picker's ISO text, not as a date.
- That text sorts after every due date stored as a date: the query orders values by type before value, so an edited payment drops to the end of the list (`PendingPayments.EditedPaymentListedAfterDatedOnes`).
- An edit of a movement without an id targets the document `movements/undefined` (`MovementsService.DocKey`).
- An empty id makes the document path name the collection itself. Building the reference then throws, so a delete, update or mark-as-paid with it changes nothing, and the page does not reload its list.

Amounts are whole cents (`int`). Conventions for what lies outside the model:

- The parts of `Date` the model does not interpret are parameters, gathered in a `Calendar`: parsing `new Date(text)`, the local `getMonth()` and `toISOString()`.
- Dialog outcomes are inputs: confirmed or cancelled, data or none.
- The outcome of a sign-in or registration call is an input.
- A fresh document id is a parameter, and so is "now".

## Model

| member | source | states |
|---|---|---|
| Dates.TimeClip | src/app/pages/transactions/transactions.page.ts:149 | a time value gives a valid date exactly within ±8.64e15 ms of the epoch, and then that very time |
| Dates.NewDate | src/app/pages/transactions/transactions.page.ts:150 | `new Date(v)`: a plain object and `undefined` give an Invalid Date, `null` the epoch, a number that time when in range, a string its parse |
| Dates.ParseDate | src/app/pages/transactions/transactions.page.ts:146-151 | `parseDate`: a Date as is, then `toDate()`, then non-zero `seconds` times 1000, then `new Date(v)`; zero seconds fall through to an Invalid Date |
| Dates.ConvertirFecha | src/app/pages/pending-payments/pending-payments.page.ts:145-149 | `convertirFecha`: `toDate()`, then a Date as is, then `new Date(v)`; a `seconds` object is never read and gives an Invalid Date |
| Dates.IsTimestamp | src/app/services/movements.service.ts:115-117 | `isTimestamp` holds exactly for a store timestamp; its truthiness test never decides |
| Dates.SummaryDate | src/app/services/movements.service.ts:135-141 | the service's month dispatch: a Date as is, then a timestamp's `toDate()`, then `new Date(v)` |
| Dates.MonthOf | src/app/pages/dashboard/dashboard.page.ts:155 | `getMonth()` yields a month in 0..11 exactly for a valid date, NaN (no month) for an Invalid Date |
| Dates.IsoString | src/app/components/edit-pending-payment/edit-pending-payment.component.ts:43-45 | `toISOString()` yields text exactly for a valid date and throws on an Invalid Date |
| Dates.ChartDate | src/app/pages/dashboard/dashboard.page.ts:154 | the dashboard dispatch throws exactly on a `null` or `undefined` date |
| Dates.ConvertToIsoString | src/app/components/edit-pending-payment/edit-pending-payment.component.ts:41-46 | `''` for an absent or falsy date; otherwise the ISO text of the Date, of `toDate()`, or of `new Date(v)`, in that order, throwing on an Invalid Date |
| Dates.DispatchesAgreeOnDatesAndTimestamps | src/app/pages/transactions/transactions.page.ts:146-151 | all four dispatches give the same date for a Date and for a store timestamp |
| Dates.ConvertirFechaIsSummaryDate | src/app/pages/pending-payments/pending-payments.page.ts:145-149 | `convertirFecha` (timestamp before Date) and the service's month dispatch (Date before timestamp) agree on every input |
| Dates.ParseDateDiffersOnlyOnSeconds | src/app/pages/transactions/transactions.page.ts:146-151 | `parseDate` differs from `convertirFecha` exactly on a `seconds` object with non-zero seconds whose time is in the `Date` range |
| Dates.ZeroSecondsFallsThrough | src/app/pages/transactions/transactions.page.ts:149 | `seconds = 0` is falsy, so `parseDate` gives an Invalid Date while the dashboard reads the epoch |
| Dates.ChartDateDiffersFromParseDate | src/app/pages/dashboard/dashboard.page.ts:154 | the dashboard dispatch departs from `parseDate` exactly on zero seconds and on raw primitives, except a string that does not parse and a number out of range |
| Movements.TypeName | src/app/services/movements.service.ts:23 | the stored `type` text of each kind is non-empty |
| Movements.TypeNameInjective | src/app/services/movements.service.ts:23 | two kinds have the same `type` text exactly when they are the same kind |
| Movements.SumOfTypeAppend | src/app/services/movements.service.ts:123-129 | a filter-then-reduce total over a concatenation is the sum of the two totals |
| Movements.SumOfTypeRemove | src/app/services/movements.service.ts:123-129 | removing one movement removes exactly its contribution from a total |
| Movements.SumOfTypePermutation | src/app/services/movements.service.ts:123-129 | the income and expense totals do not depend on the order of the movements |
| Movements.PendingCountsInNeitherTotal | src/app/services/movements.service.ts:123-129 | pending payments count in neither total: removing them leaves both totals unchanged |
| Movements.WithoutPending | src/app/services/movements.service.ts:123-129 | a movement is kept if and only if it is in the input and is not a pending payment |
| MovementsService.DueDateOrDate | src/app/services/movements.service.ts:56 | `dueDate \|\| date`: the due date unless it is absent or falsy |
| MovementsService.WithPendingDefaults | src/app/services/movements.service.ts:54-57 | a pending payment gets status `pendiente` and a due date; other movements pass unchanged; no other field changes |
| MovementsService.AddAlwaysStoresPendiente | src/app/services/movements.service.ts:54-55 | a pending payment is stored `pendiente` even when the caller passed `hecho`, with its due date or else its date |
| MovementsService.DefaultsIdempotent | src/app/services/movements.service.ts:54-57 | applying the add-time defaults twice is applying them once |
| MovementsService.Apply | src/app/services/movements.service.ts:85 | `updateDoc` merge: written fields replace the stored ones; id and owner are always kept |
| MovementsService.UpdateData | src/app/services/movements.service.ts:71-83 | the update writes amount, description, category, type and date always, and status and dueDate exactly for a pending payment |
| MovementsService.UpdateWritesEditedFields | src/app/services/movements.service.ts:71-83 | after an update the document has the five edited fields, its own owner and id, status defaulting to `pendiente` for a pending payment, and its old status and due date otherwise |
| MovementsService.MarkPaidPatch | src/app/services/movements.service.ts:93-97 | the mark-as-paid update writes only status `hecho`, type `expense` and the current date |
| MovementsService.MarkPaidChangesExactlyThreeFields | src/app/services/movements.service.ts:93-97 | marking as paid changes exactly status, type and date; the record leaves the pending query and its amount becomes an expense |
| MovementsService.DocKey | src/app/services/movements.service.ts:70 | the path segment is the id when there is one and `undefined` otherwise; it is empty exactly for the empty id, whose path throws |
| FirestoreOrder.TimestampsBeforeStrings | src/app/services/movements.service.ts:108 | a timestamp sorts before a string, whatever their values |
| FirestoreOrder.KeyLessTransitive | src/app/services/movements.service.ts:108 | the ascending order on stored values is transitive |
| FirestoreOrder.KeyLessTotal | src/app/services/movements.service.ts:108 | any two different stored values are ordered one way or the other |
| FirestoreOrder.RowLessTotal | src/app/services/movements.service.ts:108 | with ties broken by id, no two different documents tie |
| FirestoreOrder.FirstOf | src/app/services/movements.service.ts:108 | every non-empty result has a document nothing sorts before |
| FirestoreOrder.QueryOrder | src/app/services/movements.service.ts:108 | the ordered result holds exactly the matched documents, each once, none after one it sorts before |
| FirestoreOrder.QueryOrderAscending | src/app/services/movements.service.ts:108 | the ordered result is strictly ascending |
| FirestoreOrder.TimestampsListedBeforeStrings | src/app/services/movements.service.ts:108 | in a result, every document with a timestamp value precedes every document with a string value |
| FirestoreOrder.DueKey | src/app/pages/pending-payments/pending-payments.page.ts:67 | a valid `Date` due date is ordered as a timestamp, text as a string, and an absent one keeps the document out of the result |
| PendingPayments.EditedPaymentListedAfterDatedOnes | src/app/pages/pending-payments/pending-payments.page.ts:133-135 | once an edit has stored its due date as text, a payment is listed after every payment whose due date is a date |
| MovementsService.MovementStore.constructor | src/app/services/movements.service.ts:36 | the collection starts empty |
| MovementsService.MovementStore.PendingIds | src/app/services/movements.service.ts:104-107 | the pending query matches exactly the owner's documents of type `pago_pendiente` and status `pendiente` |
| MovementsService.MovementStore.PendingKeys | src/app/services/movements.service.ts:104-108 | the documents the ordered pending query returns are the matched ones with a due date, each keyed by that due date's stored value |
| MovementsService.MovementStore.PendingQuery | src/app/services/movements.service.ts:101-112 | the query returns exactly those documents, each once, in ascending due-date order with ties broken by id |
| MovementsService.MovementStore.Fetched | src/app/services/movements.service.ts:46 | a queried document carries its document id in `id` and is otherwise the stored record |
| MovementsService.MovementStore.AddMovement | src/app/services/movements.service.ts:50-60 | the defaulted record is added under the fresh, non-empty id; nothing else changes |
| MovementsService.MovementStore.DeleteMovement | src/app/services/movements.service.ts:63-66 | succeeds exactly when the id is non-empty; then exactly that document leaves the collection and every pending list, otherwise nothing changes |
| MovementsService.MovementStore.UpdateMovement | src/app/services/movements.service.ts:69-86 | succeeds exactly when the id is non-empty and the document exists, then merges the update data into it alone; on failure nothing changes |
| MovementsService.MovementStore.MarcarPagoComoHecho | src/app/services/movements.service.ts:89-98 | succeeds exactly when the id is non-empty and the document exists; only its status, type and date change, and it leaves every owner's pending list |
| FinancialSummary.AllMonthKeys | src/app/services/movements.service.ts:135-141 | the 12 month keys and the NaN key, each exactly once |
| FinancialSummary.ResumenMensual | src/app/services/movements.service.ts:133-147 | one key per month holding any movement, and each entry holds that month's income and expense totals |
| FinancialSummary.NoMovementsNoSum | src/app/services/movements.service.ts:143-145 | a month with no movement sums to zero |
| FinancialSummary.SumOverKeysStep | src/app/services/movements.service.ts:143-145 | a new movement adds its amount under its own key only |
| FinancialSummary.MonthSumsAddUp | src/app/services/movements.service.ts:133-147 | summed over all month keys, the per-month totals give the overall total |
| FinancialSummary.EntryTotalIsSumOverKeys | src/app/services/movements.service.ts:133-147 | the dictionary's entries, absent keys counting 0, sum to the per-month totals |
| FinancialSummary.GetFinancialSummary | src/app/services/movements.service.ts:120-152 | totals of the income and expense amounts, balance equal to their difference, monthly entries that add up to the totals, and all zeros for no movements |
| FinancialSummary.PendingOnlyMonthIsZero | src/app/services/movements.service.ts:137-141 | a month holding only pending payments still has a key, with entry {0, 0} |
| FinancialSummary.NoKeyNoSum | src/app/services/movements.service.ts:143-145 | a month no movement falls in has entry {0, 0} |
| Dashboard.Abs | src/app/pages/dashboard/dashboard.page.ts:129 | `Math.abs`: a non-negative value equal to the input or its negation |
| Dashboard.FirstSeenIsDistinctCategories | src/app/pages/dashboard/dashboard.page.ts:127-133 | the pie labels are distinct and are exactly the categories present |
| Dashboard.UnseenCategoryIsZero | src/app/pages/dashboard/dashboard.page.ts:128-130 | a category not yet in the map has total 0 |
| Dashboard.TotalOverLabelsStep | src/app/pages/dashboard/dashboard.page.ts:128-130 | a new movement adds its magnitude to exactly its own category's slice |
| Dashboard.TotalOverLabelsAppend | src/app/pages/dashboard/dashboard.page.ts:132-133 | one more label adds that category's total |
| Dashboard.PieCoversEveryMovement | src/app/pages/dashboard/dashboard.page.ts:127-133 | the pie slices add up to the magnitudes of all movements, of every type |
| Dashboard.SumOfLookups | src/app/pages/dashboard/dashboard.page.ts:133 | looking up each label's total and summing gives the total over the labels |
| Dashboard.CategoryBreakdown | src/app/pages/dashboard/dashboard.page.ts:127-133 | labels are the distinct categories in first-seen order; each slice is its category's magnitude total; the slices add up to all magnitudes |
| Dashboard.PieColors | src/app/pages/dashboard/dashboard.page.ts:136-146 | the first min(10, n) colours of the fixed palette |
| Dashboard.AllZeroSumsToZero | src/app/pages/dashboard/dashboard.page.ts:150-151 | a list of zeros sums to zero |
| Dashboard.Zeros | src/app/pages/dashboard/dashboard.page.ts:150-151 | `Array(12).fill(0)`: 12 entries summing to zero |
| Dashboard.Series | src/app/pages/dashboard/dashboard.page.ts:150-158 | both series have exactly 12 entries for any input, empty included |
| Dashboard.MonthlySeries | src/app/pages/dashboard/dashboard.page.ts:150-158 | 12 entries each; the loop completes exactly when no date makes the dispatch throw, and then yields the series |
| Dashboard.AddToBuckets | src/app/pages/dashboard/dashboard.page.ts:155-157 | one movement's `+=` on the two 12-entry arrays is exactly one step of the series |
| Dashboard.SumAddAt | src/app/pages/dashboard/dashboard.page.ts:156-157 | `+=` on one bucket adds that amount to the bucket sum |
| Dashboard.SeriesIncomeAddsUp | src/app/pages/dashboard/dashboard.page.ts:121-156 | with every date in a month, the income buckets sum to the income total |
| Dashboard.SeriesSpendingAddsUp | src/app/pages/dashboard/dashboard.page.ts:122-157 | with every date in a month and no negative amount, the spending buckets sum to the expense total plus the pending-payment total |
| Dashboard.AllInMonthsPrefix | src/app/pages/dashboard/dashboard.page.ts:153-158 | a prefix of a list whose dates all fall in months has the same property |
| Dashboard.PendingPaymentSkewsSeries | src/app/pages/dashboard/dashboard.page.ts:157 | one pending payment of 25.00 is no expense in the totals but 25.00 of spending on the chart |
| Dashboard.ChartTheme | src/app/pages/dashboard/dashboard.page.ts:191-192 | dark mode gets light text `#F1F5F9` and a 0.1-alpha grid, light mode dark text `#374151` and a 0.2-alpha grid |
| Dashboard.ChartThemesDiffer | src/app/pages/dashboard/dashboard.page.ts:191-192 | the dark and light themes differ in both text and grid colour |
| Dashboard.DashboardPage.constructor | src/app/pages/dashboard/dashboard.page.ts:24-86 | figures zero, charts empty, light mode |
| Dashboard.DashboardPage.CalcularResumen | src/app/pages/dashboard/dashboard.page.ts:120-124 | income and expense totals and their difference; no other field changes |
| Dashboard.DashboardPage.UpdateChartTheme | src/app/pages/dashboard/dashboard.page.ts:190-230 | the chart colours follow the current mode and nothing else |
| Dashboard.DashboardPage.OnDarkModeChange | src/app/pages/dashboard/dashboard.page.ts:96-101 | records the mode and recolours the charts |
| Dashboard.DashboardPage.ShowPie | src/app/pages/dashboard/dashboard.page.ts:127-147 | the pie labels are the first-seen categories, each slice its category's magnitude total, the slices add up to all magnitudes, and the colours are the palette prefix |
| Dashboard.DashboardPage.GenerarGraficos | src/app/pages/dashboard/dashboard.page.ts:126-188 | the pie fields always; the bar fields and the theme exactly when no date throws, and are otherwise left as they were; the summary figures are outside its frame |
| Dashboard.DashboardPage.SheetRows | src/app/pages/dashboard/dashboard.page.ts:263-279 | the title, blank and header rows, the three figures, the monthly-section header rows, then one row per bar label with that month's two buckets (`\|\| 0`) |
| Dashboard.DashboardPage.SheetAfterCharts | src/app/pages/dashboard/dashboard.page.ts:263-279 | after a chart update the sheet has 22 rows, and each month's row carries that month's label and series values |
| Text.TrimStartRemovesLeadingBlanks | src/app/pages/transactions/transactions.page.ts:159 | left trimming leaves the suffix that starts at the first non-whitespace character |
| Text.TrimEndRemovesTrailingBlanks | src/app/pages/transactions/transactions.page.ts:159 | right trimming leaves the prefix that ends at the last non-whitespace character |
| Text.TrimIsInfix | src/app/pages/transactions/transactions.page.ts:159 | `trim()` gives the infix after the leading blanks, neither starting nor ending in whitespace |
| Text.TrimIdempotent | src/app/pages/transactions/transactions.page.ts:212 | trimming twice is trimming once |
| Text.TrimEmptyIffBlank | src/app/pages/transactions/transactions.page.ts:212 | the trimmed text is empty exactly when the whole text is whitespace |
| Transactions.MatchesFilters | src/app/pages/transactions/transactions.page.ts:98-100 | empty filters match every movement; a matching movement has the filtered type and category |
| Transactions.FilterMovements | src/app/pages/transactions/transactions.page.ts:97-101 | exactly the movements that match every non-empty filter, never more than the input |
| Transactions.FilterIsSubsequence | src/app/pages/transactions/transactions.page.ts:97-101 | the shown list keeps the loaded order |
| Transactions.EmptyFiltersKeepAll | src/app/pages/transactions/transactions.page.ts:98-100 | with both filters empty the list is shown as it is |
| Transactions.FilterIdempotent | src/app/pages/transactions/transactions.page.ts:97-101 | filtering twice is filtering once |
| Transactions.SortNewestFirst | src/app/pages/transactions/transactions.page.ts:126-130 | the array becomes a permutation of itself, newest first when every date is valid |
| Transactions.InsertNewestFirst | src/app/pages/transactions/transactions.page.ts:126-130 | one insertion step extends the newest-first prefix and keeps the permutation |
| Transactions.StartInserting | src/app/pages/transactions/transactions.page.ts:126-130 | an insertion step starts from a sorted prefix |
| Transactions.SwapKeepsInserting | src/app/pages/transactions/transactions.page.ts:126-130 | moving the new element one place left past a strictly older one keeps the order |
| Transactions.DoneInserting | src/app/pages/transactions/transactions.page.ts:126-130 | when the new element meets one that is not older, the prefix is newest first |
| Transactions.GetCategoryName | src/app/pages/transactions/transactions.page.ts:262-264 | the display name of the seven known keys, any other key unchanged; the text differs from the key exactly for known keys |
| Transactions.TrackByMovement | src/app/pages/transactions/transactions.page.ts:266-268 | the id when present and non-empty, else the index |
| Transactions.TrackKeysCollideIff | src/app/pages/transactions/transactions.page.ts:266-268 | two rows share a key exactly when they share a non-empty id, or both lack one and sit at the same index |
| Transactions.TrackKeysDistinct | src/app/pages/transactions/transactions.page.ts:266-268 | a list whose non-empty ids are distinct gets pairwise distinct keys |
| Transactions.EditedMovement | src/app/pages/transactions/transactions.page.ts:207-213 | rejected exactly when amount or description is empty or the id is missing; otherwise replaces only amount and the trimmed description |
| Transactions.EditKeepsIdentity | src/app/pages/transactions/transactions.page.ts:207-213 | the edit keeps id, category, type, date and owner, and the stored document gets the new amount and description and keeps its owner |
| Transactions.BlankDescriptionAccepted | src/app/pages/transactions/transactions.page.ts:207-212 | a description of blanks passes the guard and is stored empty |
| Transactions.AddFormValid | src/app/pages/transactions/transactions.page.ts:77-81 | the add form's validators: amount at least one cent, description of at least 3 characters, category, type and date present |
| Transactions.NewTransaction | src/app/pages/transactions/transactions.page.ts:157-164 | the new record has the form's amount, trimmed description, category, type and parsed date, the current user, and no id, status or due date |
| Transactions.ResetAddForm | src/app/pages/transactions/transactions.page.ts:167-170 | the reset form holds type `expense` and the current ISO date, and does not pass validation |
| Transactions.TransactionsPage.constructor | src/app/pages/transactions/transactions.page.ts:74-89 | no user, no subscription, empty list and filters, add form set to `expense` and today |
| Transactions.TransactionsPage.FilteredMovements | src/app/pages/transactions/transactions.page.ts:91-101 | the shown list is the loaded movements that match the current filters |
| Transactions.TransactionsPage.LoadCurrentUser | src/app/pages/transactions/transactions.page.ts:106-117 | records the user when there is one and subscribes exactly when the id is non-empty |
| Transactions.TransactionsPage.LoadMovements | src/app/pages/transactions/transactions.page.ts:119-124 | subscribes only with a user |
| Transactions.TransactionsPage.OnMovements | src/app/pages/transactions/transactions.page.ts:124-131 | the pushed list is the emitted array sorted in place, a permutation of it, newest first when every date is valid |
| Transactions.TransactionsPage.OnFilterChange | src/app/pages/transactions/transactions.page.ts:140-144 | the filters become the form's value |
| Transactions.TransactionsPage.ClearFilters | src/app/pages/transactions/transactions.page.ts:303-305 | the filters are empty and the whole list is shown |
| Transactions.TransactionsPage.AddMovement | src/app/pages/transactions/transactions.page.ts:153-180 | with a valid form and a user, the new record is stored under the fresh id and the form resets to `expense`; otherwise nothing changes |
| Transactions.TransactionsPage.EditMovement | src/app/pages/transactions/transactions.page.ts:182-230 | a cancelled or invalid edit sends nothing; a valid one sends the edited record to the update |
| Transactions.TransactionsPage.DeleteMovement | src/app/pages/transactions/transactions.page.ts:232-260 | without an id nothing happens; otherwise the confirmation decides whether that document goes |
| EditPendingPayment.Prefill | src/app/components/edit-pending-payment/edit-pending-payment.component.ts:31-38 | the movement's amount, description, category and converted due date, or nothing when the conversion throws |
| EditPendingPayment.NoDueDateBlocksSave | src/app/components/edit-pending-payment/edit-pending-payment.component.ts:22-42 | a payment without a due date opens with an empty date and cannot be saved as it is |
| EditPendingPayment.EditPendingPaymentComponent.constructor | src/app/components/edit-pending-payment/edit-pending-payment.component.ts:22-27 | the form starts empty |
| EditPendingPayment.EditPendingPaymentComponent.NgOnInit | src/app/components/edit-pending-payment/edit-pending-payment.component.ts:30-39 | the form is the prefilled value, and stays untouched without a movement or when the conversion throws |
| EditPendingPayment.EditPendingPaymentComponent.Save | src/app/components/edit-pending-payment/edit-pending-payment.component.ts:53-57 | dismisses with the form value exactly when the form is valid |
| EditPendingPayment.EditPendingPaymentComponent.Cancel | src/app/components/edit-pending-payment/edit-pending-payment.component.ts:49-51 | dismisses with no data |
| PendingPayments.NuevoPago | src/app/pages/pending-payments/pending-payments.page.ts:61-70 | a pending payment of the current user, `pendiente`, with the form's values, dated now and due on the form's date |
| PendingPayments.NuevoPagoNeedsNoDefaults | src/app/pages/pending-payments/pending-payments.page.ts:61-72 | the service's add-time defaults leave the page's new record unchanged |
| PendingPayments.EditMerge | src/app/pages/pending-payments/pending-payments.page.ts:132-134 | the modal's four values override the payment's; id, type, status, date and owner are kept |
| PendingPayments.EditKeepsPaymentPending | src/app/pages/pending-payments/pending-payments.page.ts:132-134 | an edited pending payment stays in its owner's pending list, with the new amount and its due date as text |
| PendingPayments.UnchangedEditOnlyRewritesDueDate | src/app/pages/pending-payments/pending-payments.page.ts:122-134 | saving the modal untouched rewrites only the due date, to its ISO text |
| PendingPayments.PendingPaymentsPage.constructor | src/app/pages/pending-payments/pending-payments.page.ts:34-39 | no user, empty form, no list yet |
| PendingPayments.PendingPaymentsPage.Listed | src/app/pages/pending-payments/pending-payments.page.ts:50-52 | the listed ids are exactly the user's pending documents that have a due date, each once, none after one it sorts before |
| PendingPayments.PendingPaymentsPage.NgOnInit | src/app/pages/pending-payments/pending-payments.page.ts:42-48 | with a user, records it and lists its pending payments; without one nothing changes |
| PendingPayments.PendingPaymentsPage.CargarPagosPendientes | src/app/pages/pending-payments/pending-payments.page.ts:50-52 | lists the current user's pending payments |
| PendingPayments.PendingPaymentsPage.AddPagoPendiente | src/app/pages/pending-payments/pending-payments.page.ts:54-82 | nothing with an invalid form; otherwise the new payment is stored under the fresh id, the form empties, and the reloaded list holds it when its due date parses |
| PendingPayments.PendingPaymentsPage.MarcarComoHecho | src/app/pages/pending-payments/pending-payments.page.ts:84-101 | after confirmation an existing payment with a non-empty id becomes a paid expense and leaves the list; otherwise nothing changes and the list is not reloaded |
| PendingPayments.PendingPaymentsPage.EliminarPago | src/app/pages/pending-payments/pending-payments.page.ts:103-120 | after confirmation and with a non-empty id the payment is deleted and gone from the list; otherwise nothing changes and the list is not reloaded |
| PendingPayments.PendingPaymentsPage.EditarPago | src/app/pages/pending-payments/pending-payments.page.ts:122-143 | no update without modal data; otherwise the merged record goes to the update, which changes the stored payment only when its id is non-empty and names a document |
| BrowserState.GetItem | src/app/services/theme.service.ts:17 | `getItem` gives the stored text exactly when the key is present, else `null` |
| BrowserState.Browser.constructor | src/app/app.component.ts:19-21 | the window's storage, body classes and system preference |
| Theme.BoolText | src/app/services/theme.service.ts:33 | the stored text is `'true'` exactly for dark mode |
| Theme.InitialMode | src/app/services/theme.service.ts:16-25 | a saved `'true'` is dark, any other saved text light, nothing saved the system preference |
| Theme.ThemedClasses | src/app/services/theme.service.ts:36-42 | exactly one of `dark-theme`/`light-theme`, matching the mode; other classes untouched |
| Theme.AfterSetDarkMode | src/app/services/theme.service.ts:31-43 | the flag is the mode, `darkMode` stores its text, other keys are untouched, and the classes are themed |
| Theme.SetDarkModeIsConsistent | src/app/services/theme.service.ts:31-43 | after `setDarkMode` the flag, the stored text and the classes agree |
| Theme.SetDarkModeIdempotent | src/app/services/theme.service.ts:31-43 | `setDarkMode(b)` twice is once, and a no-op on a consistent state already in mode b |
| Theme.ToggleTwiceRestores | src/app/services/theme.service.ts:27-29 | toggling twice from a consistent state restores it, storage and classes included |
| Theme.StoredModeRoundTrip | src/app/services/theme.service.ts:17-33 | what `setDarkMode(b)` stores, initialisation reads back as b whatever the system prefers |
| Theme.ThemeService.constructor | src/app/services/theme.service.ts:11-14 | the service starts in the initialised, consistent state |
| Theme.ThemeService.InitializeTheme | src/app/services/theme.service.ts:16-25 | sets the saved mode, else the system preference |
| Theme.ThemeService.SetDarkMode | src/app/services/theme.service.ts:31-43 | publishes, stores and shows the mode, leaving a consistent state |
| Theme.ThemeService.ToggleDarkMode | src/app/services/theme.service.ts:27-29 | sets the opposite mode |
| Theme.ThemeService.IsDarkMode | src/app/services/theme.service.ts:45-47 | the current flag |
| App.ThemeText | src/app/app.component.ts:27 | the stored text is `'dark'` exactly for dark mode, and never empty |
| App.InitialDark | src/app/app.component.ts:21 | stored `'dark'` is dark, any other non-empty text light, missing or empty the system preference |
| App.ToggledClasses | src/app/app.component.ts:22-26 | `dark` is present exactly when on; other classes untouched |
| App.ToggleThenInitialRoundTrip | src/app/app.component.ts:21-27 | what `onThemeToggle(b)` stores, `setInitialTheme` reads back as b |
| App.ThemesAreIndependent | src/app/app.component.ts:19-27 | the component and the theme service never touch each other's storage key or classes |
| App.AppComponent.constructor | src/app/app.component.ts:14-16 | runs `setInitialTheme`; storage unchanged |
| App.AppComponent.SetInitialTheme | src/app/app.component.ts:18-23 | toggles only `dark`, by the stored choice or the system preference |
| App.AppComponent.OnThemeToggle | src/app/app.component.ts:25-28 | sets `dark` by the choice and stores it as `theme` |
| Login.EmailErrors | src/app/pages/login/login.page.ts:18 | required exactly when empty; format error exactly for a non-empty malformed address |
| Login.PasswordErrors | src/app/pages/login/login.page.ts:19 | required exactly when empty; too short exactly for 1 to 5 characters |
| Login.HasFieldError | src/app/pages/login/login.page.ts:153-156 | a field has a shown error only when it is one of the two controls, has errors and was touched |
| Login.GetFieldError | src/app/pages/login/login.page.ts:132-148 | `''` unless the field has errors and was touched; then the text of its first error in the order required, email, minlength |
| Login.FieldErrorShownIffHasFieldError | src/app/pages/login/login.page.ts:132-156 | a field error text is shown exactly when `hasFieldError` holds |
| Login.AtMostOneErrorPerField | src/app/pages/login/login.page.ts:17-20 | no control ever has two errors at once |
| Login.LoginErrorMessage | src/app/pages/login/login.page.ts:97-112 | the seven known codes map to their fixed texts; else the error's message when non-empty, else the default; never empty |
| Login.LoginPage.constructor | src/app/pages/login/login.page.ts:22-24 | not loading, no error, password hidden |
| Login.LoginPage.OnLogin | src/app/pages/login/login.page.ts:35-61 | an invalid form only marks both controls touched; otherwise the error is cleared, a failure shows its message, success heads for the dashboard, and loading ends false |
| Login.LoginPage.MarkFormGroupTouched | src/app/pages/login/login.page.ts:87-92 | both controls become touched, so every error shows |
| Login.LoginPage.HandleLoginError | src/app/pages/login/login.page.ts:97-112 | the shown text is the mapped message |
| Login.LoginPage.TogglePassword | src/app/pages/login/login.page.ts:80-82 | flips the password visibility, so twice is no change |
| Register.PasswordsMatchValidator | src/app/pages/register/register.page.ts:30-34 | `null` exactly when both passwords are equal, else `{notMatching: true}` |
| Register.PasswordsMatchSymmetric | src/app/pages/register/register.page.ts:33 | swapping the two fields does not change the verdict |
| Register.ValidConfirmationIsLongEnough | src/app/pages/register/register.page.ts:17-23 | in a valid form the confirmation equals the password and has at least 6 characters |
| Register.RegisterErrorMessage | src/app/pages/register/register.page.ts:49 | the error's message, or `'Error en registro'` when it has none |
| Register.RegisterPage.constructor | src/app/pages/register/register.page.ts:25-26 | not loading, no error |
| Register.RegisterPage.OnRegister | src/app/pages/register/register.page.ts:36-53 | nothing when the form is invalid; otherwise success heads for the login page, a failure shows its message, and loading ends false |

## Left out

- Firestore itself (`collection`, `query`, `collectionData`, `addDoc`, `updateDoc`, `deleteDoc`) is a foreign library. The collection is a map, `updateDoc` is a field merge that fails on a missing document, and a write is assumed to succeed when its document exists. Permission and connectivity failures are not modelled.
- The `getMovements` owner query and its `orderBy('date', 'desc')` are not modelled as a query: the transactions page and the dashboard receive the emitted list as an input, and the transactions page sorts it again itself. The pending-payments query, with its `orderBy('dueDate', 'asc')`, is modelled (`MovementsService.MovementStore.PendingQuery`).
- `FirestoreOrder.DueKey`: a due date that is an Invalid Date or `undefined` is taken as keeping the payment out of the ordered result; how Firestore would store such a value is not modelled. A `Timestamp` read back from the store and a `Date` compare as the same millisecond timestamp.
- Strings in the query order compare by code point, which is UTF-8 byte order for the model's Unicode characters; lone UTF-16 surrogates are not modelled.
- A document id containing `/` names a path of a different shape; such ids are not modelled. Store-chosen ids never contain one.
- The conversion of a `Date` to a store timestamp on write is not modelled: a record is stored with the date value it was given.
- `updateDoc` with an `undefined` due date: Firestore rejects an `undefined` field. Here it writes an absent due date.
- `MovementsService.MovementStore.AddMovement`: the store's choice of a fresh id is a parameter that must be non-empty and not in use, as every id the store generates is.
- `Transactions.TransactionsPage.AddMovement`: the add is assumed to succeed, taking the store's fresh id as a parameter.
- `PendingPayments.PendingPaymentsPage.AddPagoPendiente`: the add is assumed to succeed, taking the store's fresh id as a parameter.
- `Transactions.SortNewestFirst`: `Array.prototype.sort` is modelled as a stable insertion sort. Its contract promises an order only when every date is valid; with an Invalid Date the comparator returns NaN and is not a consistent order, so the source promises none either.
- `PendingPayments.PendingPaymentsPage.EditarPago`: requires valid data, because the modal only dismisses with a valid form (`EditPendingPayment.EditPendingPaymentComponent.Save`).
- `Dashboard.SeriesSpendingAddsUp`: requires non-negative amounts. The series adds magnitudes, while the totals add signed amounts.
- Amounts are whole cents. `parseFloat`, `toFixed(2)` and floating-point rounding are not modelled.
- Date internals are parameters: `new Date(text)` parsing, the local-time `getMonth()`, `toISOString()` and `toLocaleDateString()`. Time zones are not modelled.
- A date the runtime produces (a parsed string, `new Date()` for "now") is taken to lie in the `Date` range. Numeric time values, `seconds` objects and timestamps are range-checked as `new Date` does (`Dates.TimeClip`). Fractional milliseconds are not modelled.
- The e-mail pattern of `Validators.email` is a given boolean. `minLength` counts UTF-16 code units in JavaScript but characters here.
- Keys inherited from `Object.prototype` (such as `constructor`) are not modelled in the category-name and login-error lookups.
- The RxJS plumbing is not modelled: subjects, `combineLatest`, subscriptions, `ngOnDestroy`, `refreshData` and the dashboard's `ngOnInit` stream wiring. A subscription callback is a method taking the emitted value.
- Ionic alerts, toasts, loading indicators and modals are not modelled; a dialog's outcome is an input.
- `exportarPDF` and the spreadsheet file write are not modelled. Only the rows handed to the sheet writer are.
- The Chart.js option objects are reduced to the chosen text and grid colours.
- The login success animation is not modelled. The `setTimeout` before navigating is modelled as an immediate navigation request.
- `goToRegister` and `goToForgotPassword` are plain navigations and are not modelled.
- The transactions page's per-field error getters (`amountError`, `descriptionError`, `categoryError`) only format messages and are not modelled.
- The authentication service, route guard, user and profile services, route table, menu and edit-transaction component are not part of this model.
