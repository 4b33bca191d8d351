# Commission dashboard — a Dafny model

This project models the bookkeeping core of a small client-side dashboard for real-estate
sales commissions. Each sale (`Sale`) records a developer (`construtora`), an agent
(`corretor`), a sale value and two commission percentages. From these the dashboard works out
the seller commission, the amount paid against it and a payment status derived from the two.
Users log in with one of four roles (admin, gerente, corretor, financeiro). The role decides
what a user may do and which sales they see.

The model covers:

- the record types and their three closed enumerations (`types.dfy`);
- the commission formula and the payment-status projection (`commission.dfy`);
- the permission matrix and the agent-only visibility filter (`access.dfy`);
- the dashboard totals (`stats.dfy`);
- the sale collection with its add, edit and delete operations (`sales_store.dfy`, a class
  holding a `seq<Sale>`);
- the add/edit form, whose status is always re-derived (`sale_form.dfy`, a class holding the
  draft record);
- the sales table: row actions, header and empty state, per-row figures and status badges
  (`sales_table.dfy`);
- the three chart series: by developer and by agent in first-appearance order, and by month
  in chronological order (`grouping.dfy`, `month_order.dfy`, `dashboard.dfy`; the reducers are
  loops);
- the CSV report, with a reader for the same dialect that serves as its partner
  (`csv.dfy`);
- the mock credential store with login, register and logout (`auth.dfy`, a class holding the
  account dictionary and the current user);
- facts about the three starting sales (`seed.dfy`).

Money and percentages are exact `real`s. A missing user is `None`. Refusals are `Err`
values of a `Result`.

## Model

| member | source | states |
|---|---|---|
| Types.ParseRepasse | types.ts:2 | a text is read as a transfer status exactly when it is one of the seven labels, and then as the status with that label |
| Types.ParsePagamento | types.ts:3 | a text is read as a payment status exactly when it is one of the three labels, and then as the status with that label |
| Types.ParseRole | types.ts:30 | a text is read as a role exactly when it is one of the four labels, and then as the role with that label |
| Types.StatusLabelsDisjoint | types.ts:2-3 | no payment-status text is also a transfer-status text, so a status label names one kind of status only |
| Commission.CommissionBounds | components/SaleFormModal.tsx:29-31 | with non-negative inputs the seller commission is non-negative; with both percentages at most 100 it never exceeds the sale value |
| Commission.SellerCommission | components/SaleFormModal.tsx:29-31 | a zero sale value or a zero percentage gives a zero commission |
| Commission.SaleCommission | App.tsx:124-125 | a stored sale's seller commission is non-negative for non-negative inputs and at most the sale value for percentages up to 100 |
| Commission.PaidOrZero | components/SaleFormModal.tsx:43 | a missing (NaN) paid amount counts as 0; any number counts as itself |
| Commission.Remaining | components/SaleFormModal.tsx:77 | remaining plus paid is the commission; remaining is positive iff paid is below the commission and zero iff they are equal, so it is not clamped |
| Commission.DeriveStatus | components/SaleFormModal.tsx:43-52 | Pendente iff paid ≤ 0; Pago Parcialmente iff 0 < paid < commission; Pago iff paid > 0 and paid ≥ commission; exactly one status holds for every input |
| Commission.StatusOfInput | components/SaleFormModal.tsx:43-52 | a missing (NaN) paid amount counts as zero and yields Pendente |
| Commission.StatusAgreesWithRemaining | components/SaleFormModal.tsx:46-52 | Pago Parcialmente leaves a positive amount below the commission to receive; Pago leaves nothing; Pendente leaves the whole commission or more |
| Commission.ZeroCommissionBoundary | components/SaleFormModal.tsx:46-51 | against a zero commission, nothing paid is Pendente and any positive payment is Pago |
| Commission.SeededSaleBoundaries | components/SaleFormModal.tsx:29-52 | for 500000 at 5 % and 35 % the commission is 8750; paying 8750 is Pago, 5000 is Pago Parcialmente, 0 is Pendente |
| Access.UserCan | App.tsx:60-70 | nobody may do anything without a user; an action is allowed iff the user is admin, or is gerente and the action is add |
| Access.UserCanIsTable | App.tsx:62-69 | `userCan` agrees, for every role and action, with the written-out permission table |
| Access.SalesOfCount | App.tsx:75 | filtering by agent keeps every occurrence of that agent's sales and none of anyone else's |
| Access.SalesOfAppend | App.tsx:75 | filtering by agent distributes over concatenation, so the original order is kept |
| Access.VisibleSales | App.tsx:72-78 | nobody sees nothing; a corretor sees exactly the sales whose agent is their name, each with all its occurrences; any other role sees the whole list |
| Access.VisibleSalesAppend | App.tsx:72-78 | the visible list of a concatenation is the concatenation of the visible lists, so order is kept |
| Access.VisibleSalesIdempotent | App.tsx:72-78 | filtering an already visible list again changes nothing |
| Stats.ComputeStats | App.tsx:121-132 | pending is exactly total commission minus total paid, with no clamping at zero; no sales give four zeros |
| Stats.TotalsAppend | App.tsx:122-128 | the sales, commission and paid sums split over a concatenation |
| Stats.StatsOfAppended | App.tsx:121-132 | one more sale raises each total by that sale's own value, commission, paid amount and remainder |
| Stats.PendingIsSumOfRemaining | App.tsx:129 | the pending total equals the sum of the per-row amounts still to receive |
| Stats.PendingNonNegative | App.tsx:129 | when no sale is overpaid the pending total is not negative |
| Stats.TotalValueNonNegative | App.tsx:122 | non-negative sale values give a non-negative sales total |
| SalesStore.ReplaceById | App.tsx:109 | an edit keeps the length; each record with the saved id becomes the saved sale and every other record is unchanged |
| SalesStore.RemoveById | App.tsx:117 | a delete keeps only records of the list, none with the deleted id |
| SalesStore.RemoveByIdCount | App.tsx:117 | a delete keeps every occurrence of each record with another id and removes all with the id |
| SalesStore.RemoveByIdAppend | App.tsx:117 | a delete distributes over concatenation, so the survivors keep their relative order |
| SalesStore.RemoveAbsentId | App.tsx:117 | deleting an id no record carries changes nothing |
| SalesStore.ReplaceKeepsIds | App.tsx:109 | an edit never changes any record's id |
| SalesStore.RemoveKeepsUniqueIds | App.tsx:117 | a delete keeps unique ids unique |
| SalesStore.AppendFreshKeepsUniqueIds | App.tsx:110 | appending a sale with a new id keeps ids unique |
| SalesStore.SalesApp.constructor | App.tsx:22-32 | the list starts as the saved one when it can be read back, as the three starting sales otherwise; the form is closed with nothing being edited |
| SalesStore.SalesApp.OpenNew | App.tsx:91-94 | the form opens for a new sale; the list is unchanged |
| SalesStore.SalesApp.OpenEdit | App.tsx:96-99 | the form opens on the given sale; the list is unchanged |
| SalesStore.SalesApp.Close | App.tsx:101-104 | the form closes and forgets the edited sale; the list is unchanged |
| SalesStore.SalesApp.SaveSale | App.tsx:106-113 | while editing, the list becomes the by-id replacement; otherwise exactly one record is appended under the fresh id, earlier records untouched; unique ids stay unique; the form closes |
| SalesStore.SalesApp.DeleteSale | App.tsx:115-119 | once confirmed, the list becomes the by-id removal; unconfirmed, nothing changes; unique ids stay unique |
| SeedData.InitialCommissions | App.tsx:15-17 | the starting sales' seller commissions are 8750, 11812.5 and 10850 |
| SeedData.InitialStatusesAreDerived | App.tsx:15-17 | each starting sale's stored payment status is the one its amounts derive |
| SeedData.InitialIdsAreUnique | App.tsx:14-18 | the starting sales have distinct ids |
| SeedData.InitialStats | App.tsx:121-132 | over the starting sales the totals are 1870000 sold, 31412.5 commission, 13750 paid and 17662.5 pending |
| SaleFormModal.WithDerivedStatus | components/SaleFormModal.tsx:54 | the status effect makes the draft consistent and changes no field but the status |
| SaleFormModal.DerivedStatusIdempotent | components/SaleFormModal.tsx:42-56 | re-deriving is idempotent, ignores the status held before, and leaves exactly the consistent drafts unchanged |
| SaleFormModal.DefaultDraft | components/SaleFormModal.tsx:12-27 | a blank form has value 0, 5 %, 35 %, nothing paid, Pendente and NFS-e pendenciada, and is consistent |
| SaleFormModal.FromSale | components/SaleFormModal.tsx:33-40 | loading a sale into the form and submitting it under the same id gives back the sale |
| SaleFormModal.WithText | components/SaleFormModal.tsx:59-63 | the named text field takes the typed text; every other text field, every number and both statuses keep their values, so the commission is unchanged |
| SaleFormModal.WithNumber | components/SaleFormModal.tsx:59-63 | the named numeric field takes the parsed number; every other number, every text field and both statuses keep their values; changing the paid amount keeps the commission |
| SaleFormModal.ChangeToSameValue | components/SaleFormModal.tsx:59-63 | typing back the value a field already holds, text or number, leaves the draft unchanged |
| SaleFormModal.SaleForm.constructor | components/SaleFormModal.tsx:12-56 | a new sale opens the blank form; an edit opens the sale's fields with the status re-derived; either way the form is consistent |
| SaleFormModal.SaleForm.ChangeText | components/SaleFormModal.tsx:59-63 | a text change replaces that field only and keeps the form consistent |
| SaleFormModal.SaleForm.ChangeNumber | components/SaleFormModal.tsx:42-63 | a numeric change replaces that field and then re-derives the status |
| SaleFormModal.SaleForm.ChangeRepasse | components/SaleFormModal.tsx:59-63 | the transfer status is set freely and nothing else changes |
| SaleFormModal.SaleForm.RemainingCommission | components/SaleFormModal.tsx:77 | remaining plus paid is the draft's commission, not clamped |
| SaleFormModal.SaleForm.ShowsShortfallAlert | components/SaleFormModal.tsx:102 | in a consistent form the shortfall alert shows iff something but not all of the commission was paid |
| SaleFormModal.SaleForm.AlertAmountPositive | components/SaleFormModal.tsx:102-106 | whenever the shortfall alert shows, the amount it names is positive and below the commission |
| SaleFormModal.SaleForm.Submit | components/SaleFormModal.tsx:65-75 | the submitted sale carries the edited sale's id, or the empty id for a new one, plus the form's fields; its status is the one its amounts derive |
| SalesTable.CanPerformActions | components/SalesTable.tsx:41 | row actions are shown iff the user is an admin, and a user shown them may add, edit and delete |
| SalesTable.RowActionsMatchPermissions | components/SalesTable.tsx:41 | row actions appear iff the user is admin, i.e. iff they may edit and delete; a null user gets none; a gerente may add but gets none |
| SalesTable.Headers | components/SalesTable.tsx:48 | ten headers for an admin, the last being "Ações"; otherwise the nine base headers |
| SalesTable.RowOf | components/SalesTable.tsx:57-58 | a row shows the calculator's seller commission, and remaining plus paid is that commission |
| SalesTable.Body | components/SalesTable.tsx:56-103 | one row per sale in order, with admin-only actions; no sales give one placeholder spanning as many columns as the header (10 or 9) |
| SalesTable.StatusBadge | components/SalesTable.tsx:13-35 | intended lookup: a known status text gets its table colour and any other text the gray fallback; the text is shown unchanged |
| SalesTable.StatusBadgeAsWritten | components/SalesTable.tsx:14-28 | as written: a known status gets its colour; a name inherited from the object prototype gets a class that is not gray; any other text is gray; the text is shown unchanged |
| SalesTable.InheritedStatusIsNotGray | components/SalesTable.tsx:28 | "toString" is no status, yet as written its badge is not gray, while the intended lookup gives gray |
| SalesTable.KnownStatusesHaveColours | components/SalesTable.tsx:14-25 | every payment and transfer status has an entry, and none of them is gray |
| SalesTable.UnknownStatusIsGray | components/SalesTable.tsx:28 | a text that is no status of either kind is gray under the intended lookup; as written it is gray exactly when it is not an inherited prototype name |
| Grouping.MonthKey | components/Dashboard.tsx:76 | the month key is a prefix of the date, seven characters long for a full ISO date |
| Grouping.DistinctKeys | components/Dashboard.tsx:63-71 | the distinct keys in order of first appearance: no key twice, no more keys than sales, every sale's key present |
| Grouping.DistinctKeysAreKeySet | components/Dashboard.tsx:63-71 | a key is a distinct key exactly when some sale carries it |
| Grouping.PartitionSum | components/Dashboard.tsx:63-98 | a series naming each key once, holding each key's sum and missing none, adds up to the total sale value |
| Grouping.SumForPermutation | components/Dashboard.tsx:74-83 | the per-key sum does not depend on the order of the sales |
| MonthOrder.MonthOrdinal | components/Dashboard.tsx:76 | a year-month key maps to its month count from year 0; any other key comes before all of them |
| MonthOrder.MonthOrdinalIsChronological | components/Dashboard.tsx:86 | for year-month keys the order is by year, then by month |
| MonthOrder.MonthOrdinalInjective | components/Dashboard.tsx:76 | two year-month keys with the same first day are the same key |
| MonthOrder.ExampleMonths | components/Dashboard.tsx:86 | 2023-10 sorts before 2023-11, which sorts before 2024-01 |
| MonthOrder.InsertByMonth | components/Dashboard.tsx:86 | inserting into a sorted series keeps it sorted and adds exactly that entry |
| MonthOrder.SortByMonth | components/Dashboard.tsx:86 | the result is sorted ascending by month and is a permutation of the input |
| Dashboard.FindByName | components/Dashboard.tsx:64 | `find` returns the first entry with the key, or reports that none has it |
| Dashboard.AddSale | components/Dashboard.tsx:64-70 | one reducer step turns the series of the earlier sales into the series of those sales plus this one |
| Dashboard.GroupBy | components/Dashboard.tsx:63-71 | one entry per distinct key in first-appearance order, each holding its key's sum; no more entries than sales; the entries add up to the sales total |
| Dashboard.ChartDataByConstrutora | components/Dashboard.tsx:63-71 | the developer series is a first-appearance series by developer that adds up to the sales total |
| Dashboard.ChartDataByCorretor | components/Dashboard.tsx:90-98 | the agent series is a first-appearance series by agent that adds up to the sales total |
| Dashboard.OpenBucket | components/Dashboard.tsx:78-80 | a missing month bucket is opened at zero and recorded last; an existing one is left alone |
| Dashboard.AccumulateByMonth | components/Dashboard.tsx:74-83 | after the reduce there is one bucket per month of the sales, opened in first-appearance order, each holding that month's sum |
| Dashboard.BucketValues | components/Dashboard.tsx:86 | `Object.values` reads the buckets back in the order they were opened |
| Dashboard.ChartDataByMes | components/Dashboard.tsx:73-87 | each month once, sorted ascending, each holding that month's sum; no more entries than sales; the entries add up to the sales total |
| Dashboard.MonthSeriesIndependentOfOrder | components/Dashboard.tsx:73-87 | for ISO-dated sales, the month series is the same whatever order the sales come in |
| Dashboard.ChartData | components/Dashboard.tsx:100-106 | the month view shows the month series, the agent view the agent series and the developer view the developer series; whichever is shown adds up to the sales total |
| Dashboard.AvailableViews | components/Dashboard.tsx:116-122 | the developer and month views always come first; the agent view is offered iff the user is not a corretor, a null user included; no view is listed twice |
| Csv.DoubleQuotes | App.tsx:149 | doubling quotes never shortens a text and leaves a text without quotes unchanged |
| Csv.EscapeField | App.tsx:146-152 | a value is kept unchanged iff it holds no quote, comma or line feed; otherwise it is wrapped in quotes |
| Csv.QuotedRoundTrip | App.tsx:149 | reading a quoted body with doubled quotes gives back the original value |
| Csv.FieldRoundTrip | App.tsx:146-152 | reading an escaped field gives back the value, whatever it holds |
| Csv.RecordRoundTrip | App.tsx:172 | reading a line of escaped fields joined by commas gives back the fields |
| Csv.DocumentRoundTrip | App.tsx:175 | reading escaped lines joined by line feeds gives back the rows |
| Csv.Cells | App.tsx:154-171 | a sale's line has fifteen cells in column order: the texts as stored, the date and the four numbers through their renderers, and the two status labels |
| Csv.CellRows | App.tsx:154-173 | one line of cells per visible sale, in order |
| Csv.TitlesArePlain | App.tsx:140-144 | no column title holds a quote, comma or line feed |
| Csv.HeaderLineIsEncoded | App.tsx:175 | joining the titles unescaped is the same as writing them escaped |
| Csv.JoinWithLength | App.tsx:172 | `join` of no parts is empty; otherwise its length is the parts' total length plus one separator between each pair of neighbours |
| Csv.JoinWithSnoc | App.tsx:172 | joining one more part appends one separator and that part |
| Csv.ReportLines | App.tsx:175 | the report body (header line, then one line per sale, joined by line feeds) reads back as the column titles followed by each sale's cells |
| Csv.ExportCsv | App.tsx:134-175 | the export is refused, with the "no data" message, iff no sale is visible; otherwise it is the byte-order mark, then the header line and one line per sale joined by line feeds |
| Csv.ExportRoundTrip | App.tsx:134-175 | reading an export back (skipping the byte-order mark) gives the column titles and then every visible sale's cells, in order |
| Auth.ToLower | auth/useAuth.ts:54 | lower-casing keeps the length and lower-cases each letter in place |
| Auth.ToLowerIsLower | auth/useAuth.ts:77 | lower-casing yields lower case and is idempotent |
| Auth.CaseInsensitiveKey | auth/useAuth.ts:54 | usernames that differ only in letter case give the same key |
| Auth.Index | auth/useAuth.ts:5-26 | the dictionary has a key exactly for each account's username |
| Auth.SeedIsWellKeyed | auth/useAuth.ts:5-26 | in the seeded dictionary every key is lower case and its account's username, and the only admin is the seeded admin |
| Auth.LoginResult | auth/useAuth.ts:51-63 | login succeeds iff the lower-cased username is stored with that exact password, and then gives its user; otherwise it fails with the invalid-credentials error |
| Auth.RegisterResult | auth/useAuth.ts:65-91 | a taken lower-cased username is refused first; then the admin role is refused; otherwise the new user has the lower-cased username, the given name and the role |
| Auth.RegisterKeepsWellKeyed | auth/useAuth.ts:82-85 | storing a registered account keeps every key lower case, and keeps the seeded admin the only admin |
| Auth.RegisterThenLogin | auth/useAuth.ts:82-87 | after registering, the same username in any letter case with the same password logs the new user in |
| Auth.RegisterThenRegisterAgain | auth/useAuth.ts:68-70 | a registered username cannot be registered again, in any letter case |
| Auth.RegisterResultAsWritten | auth/useAuth.ts:68-70 | as written, the names inherited from the object prototype are refused as taken; every other name is treated as by the intended rule |
| Auth.InheritedNameIsRefused | auth/useAuth.ts:68 | registering "constructor" is refused as written although no account has that name; the intended rule accepts it |
| Auth.AdminLogsIn | auth/useAuth.ts:6-9 | the seeded admin logs in with its password |
| Auth.MixedCaseLogsIn | auth/useAuth.ts:54-56 | "Ana.Costa" logs in as the seeded ana.costa account |
| Auth.AuthStore.constructor | auth/useAuth.ts:5-37 | a session starts with the seeded accounts and nobody logged in |
| Auth.AuthStore.Login | auth/useAuth.ts:51-63 | on success the account's user is logged in; on failure neither the user nor the accounts change; the store invariant holds |
| Auth.AuthStore.Register | auth/useAuth.ts:65-91 | on success exactly one account is stored under the lower-cased key and its user is logged in; a refusal changes nothing; every key stays lower case and the only admin stays the seeded one |
| Auth.AuthStore.Logout | auth/useAuth.ts:93-95 | nobody is logged in and the accounts are unchanged |

## Left out

- components/LiveAgentWidget.tsx, components/ChatWidget.tsx and services/geminiService.ts are not part of this model. They cover audio streaming, chat UI and calls to an external language-model service.
- components/Login.tsx, components/Header.tsx and the rendering of every component are not part of this model. Only the logic they drive is modelled.
- Browser storage. The saved sale list is a parameter of `SalesApp`'s constructor: `None` when nothing was saved or it could not be parsed. Saving the list (App.tsx:52-58, 81-89) is not modelled. The user saved in `sessionStorage` is not restored: a session starts with nobody logged in.
- The theme toggle (App.tsx:33-50) is not modelled.
- `window.confirm` is the boolean parameter `confirmed` of `DeleteSale`.
- Alerts are not modelled. Their messages are `Err` values (`NoDataMessage`, `Auth.Message`).
- The 500 ms `setTimeout` delays of login and register are not modelled: both are synchronous, and a rejected promise is an `Err` result.
- The file download (Blob, link), the PDF export and sharing (App.tsx:176-261) are not modelled.
- Locale formatting. Currency strings, `toLocaleDateString` and the way numbers are rendered in the CSV (`String(number)`) are the `number` and `date` parameters of the export. The month bar's label (`toLocaleString`, components/Dashboard.tsx:75) is replaced by the `YYYY-MM` key, which names the same month. The month bar's `date` field is used only for the sort and is not stored.
- Timestamps. Today's date for a blank form is a parameter. The id of a new sale is the parameter `freshId`, required not to be in use (the source relies on the clock for this). The id of a new user is `"user-"` followed by the parameter `stamp`.
- Floating point. Amounts are exact reals, so boundaries such as paid = commission are exact, where the source may be off by a rounding error.
- NaN is represented only by `StatusOfInput`'s `None`, which the status effect's `|| 0` turns into 0. The form's numeric fields always hold numbers: an emptied numeric input, which the source parses to NaN, is not represented. `Number(...)` in the submit handler is then the identity.
- The date normalisation applied when a sale is loaded into the form (components/SaleFormModal.tsx:37) is not modelled: an ISO date is kept as stored.
- Auth.ToLower: only ASCII letters are lower-cased, whereas JavaScript's `toLowerCase` also maps other Unicode letters.
- MonthOrder.MonthOrdinal: a date whose first seven characters are not a `YYYY-MM` month has no valid date in the source, and its sort position depends on the engine. The model puts such keys first, and `Dashboard.MonthSeriesIndependentOfOrder` assumes every sale has an ISO date.
- React's render cycle is not modelled. State updates take effect immediately, and the status effect runs as part of the change that triggers it (`SaleForm.ChangeNumber`).
- Auth.AuthStore.Register: the store follows the intended rule `Auth.RegisterResult`, so it accepts the usernames "constructor" and "__proto__", which auth/useAuth.ts:68 refuses as taken; the as-written rule is `Auth.RegisterResultAsWritten` (see Findings).
- SalesTable.StatusBadgeAsWritten: the class an inherited name yields is written as the engine's usual text for a built-in method (`function name() { [native code] }`) or `[object Object]`; the model promises only that it is not gray.
- The table's badges are drawn for the status fields of sales, whose values are always status labels, so `SalesTable.StatusBadge` (the intended lookup) and the as-written lookup agree on every badge the table shows (`SalesTable.KnownStatusesHaveColours`).

## Findings

| source | as written | input that shows it | evidently intended | confidence | as-written member | corrected member |
|---|---|---|---|---|---|---|
| auth/useAuth.ts:68 | The taken-username test is a truthiness test on a lookup in a plain object, and that lookup also finds the names the object inherits from its prototype. | Registering the username "constructor" (or "__proto__") with any non-admin role is refused with "Este nome de usuário já existe." although no account has that name. | Only names that already have an account are taken. | not executed | Auth.RegisterResultAsWritten, Auth.InheritedNameIsRefused | Auth.RegisterResult |
| components/SalesTable.tsx:28 | The colour lookup is a truthiness test on a plain object, so a name the object inherits from its prototype finds a method (or the prototype itself) instead of falling back to gray. | A badge for the text "toString" (or any other of the twelve inherited names) gets the method's source text as its class rather than the gray class. | Any text that is not one of the ten status labels is gray. | not executed | SalesTable.StatusBadgeAsWritten, SalesTable.InheritedStatusIsNotGray | SalesTable.StatusBadge |
