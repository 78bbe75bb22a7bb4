# umana-property admin front end — a Dafny model

This project models the client-side rules of the umana-property admin
dashboard, a Next.js application for a savings-and-investment group. The
server does the accounting. The client decides:

- which routes a visitor may open (the route guard);
- how the investment-cycle page keeps its cached list of cycles in step
  with the server: reload after every successful write, keep the list on
  failure, do nothing without a token;
- which status badges and action buttons each cycle gets, and what the four
  summary cards show;
- the payloads the create, update and distribute-profit forms send, and how
  their input is checked;
- how the dashboard overview searches, filters and sorts its users (newest
  first) and turns them into a CSV export;
- how the users table searches, filters and edits its list (delete by id,
  which as written never reaches the server, replace by id, replace
  everything after a payment);
- the amount check and busy flag of the payment modal, and the
  password-change form;
- the user store: one nullable user with set and clear.

There is one Dafny module per source file. Pure code (route guard, table,
cards, form payloads, filters, CSV) becomes functions and lemmas. Components
whose handlers change state step by step (investments page, users table,
payment modal, distribute-profit modal, settings page, dashboard fetch, user
store) become classes whose methods change their fields.

Each network call is an opaque outcome. Its answer is a method parameter: an
`ok` flag, the list that comes back, or a `Fetched`/`FetchFailed` reply.
Every class keeps a log field (`calls`, `effects`, `requests`) that records
what it sent and what it showed, in order. That log is what makes "no
request", "exactly one reload" and "toast, then callback, then close"
statable.

Handlers that hold a busy flag across an `await` are split at the `await`:
`HandlePaymentSubmit`/`FinishPayment`, `HandlePasswordChange`/`Finish` and
`HandleSubmit`/`Settle`. The flag's value while the request is pending, the
re-entry guard and the reset in `finally` are each stated. The handlers of
the investments page run to completion one at a time.

Helper modules:

- `options.dfy` (`Option`, JavaScript truthiness of an optional string,
  toasts);
- `seqs.dfy` (filter, subsequence, a stable descending insertion sort);
- `text.dfy` (`includes`, ASCII `toLowerCase`, ECMAScript `trim`,
  `split("T")[0]`, decimal rendering, `join`/`split` and their round trip);
- `cycles.dfy` (the investment-cycle records);
- `csv_quoting.dfy`: quoted CSV fields in the manner of section 2, rules
  5-7, of RFC 4180, with a line parser and the proof that a quoted line
  reads back as its cells. The corrected export uses it.

## Model

| member | source | states |
|---|---|---|
| Middleware.Cookie | src/middleware.ts:6-7 | a cookie lookup gives a value exactly when the name is in the jar, and then that cookie's value |
| Middleware.Token | src/middleware.ts:5-7 | the token is the `next-auth.session-token` value when it is non-empty, otherwise whatever the `__Secure-` cookie holds |
| Middleware.SignedInIff | src/middleware.ts:5-7 | a request counts as signed in if and only if one of the two cookies holds a non-empty value |
| Middleware.Decide | src/middleware.ts:12-21 | redirect to `/login` exactly when there is no token and the path starts with `/dashboard`; redirect to `/` exactly when there is a token and the path is exactly `/login` or `/register`; pass through exactly in every other case; the two redirects exclude each other |
| Middleware.SubpathOfLoginPasses | src/middleware.ts:17-19 | `Decide` lets a signed-in request for `/login/x` pass, because the auth-page test is an exact match (the matcher keeps such paths away from the middleware) |
| Middleware.DashboardPrefixGuarded | src/middleware.ts:12-14 | without a token, `Decide` sends every path starting with `/dashboard` to the login page, while `/login` and `/register` pass; of these the matcher runs the middleware only on `/dashboard`, `/dashboard/...`, `/login` and `/register` |
| Middleware.RedirectTargetPasses | src/middleware.ts:12-21 | a redirect target is always passed through, so the guard never bounces a request in a loop |
| UserStore.Apply | src/stores/userStore.ts:22-23 | `setUser(u)` leaves exactly `u`; `clearUser` leaves no user |
| UserStore.UpdateForgetsPrevious | src/stores/userStore.ts:22-23 | both updates overwrite: the state before them does not matter |
| UserStore.UpdatesAbsorb | src/stores/userStore.ts:22-23 | clearing is idempotent, a second `setUser` wins, and a clear after a set leaves no user |
| UserStore.Store.constructor | src/stores/userStore.ts:21 | the store starts with no user |
| UserStore.Store.SetUser | src/stores/userStore.ts:22 | after `setUser(u)` the user is `u`, whatever it was before |
| UserStore.Store.ClearUser | src/stores/userStore.ts:23 | after `clearUser` there is no user |
| InvestmentPage.Reloaded | src/app/dashboard/investments/page.tsx:26-33 | a successful reload replaces the cache wholesale with the fetched list, and absent data reads as the empty list; a failed reload keeps the cache |
| InvestmentPage.WriteCalls | src/app/dashboard/investments/page.tsx:38-44 | a write sends itself first, then one list request exactly when it succeeded |
| InvestmentPage.ReloadsAppend | src/app/dashboard/investments/page.tsx:41 | the reloads of two call sequences one after the other add up |
| InvestmentPage.WriteReloadsOnce | src/app/dashboard/investments/page.tsx:61-65 | a write that is not itself a reload causes exactly one reload on success and none on failure |
| InvestmentPage.Page.Table | src/app/dashboard/investments/page.tsx:115-123 | while loading, the table shows the loading message |
| InvestmentPage.Page.constructor | src/app/dashboard/investments/page.tsx:16-21 | the page starts with an empty cache, loading, nothing selected and every modal closed |
| InvestmentPage.Page.LoadCycles | src/app/dashboard/investments/page.tsx:23-34 | without a token nothing changes; otherwise one list request, the cache becomes `Reloaded`, `loading` ends false, and the selection and modal flags are untouched |
| InvestmentPage.Page.Mount | src/app/dashboard/investments/page.tsx:98-100 | the mount effect loads exactly when there is a token |
| InvestmentPage.Page.Write | src/app/dashboard/investments/page.tsx:58-96 | a write followed by a reload on success; on failure the cache and `loading` stay as they were |
| InvestmentPage.Page.HandleCreate | src/app/dashboard/investments/page.tsx:36-45 | without a token nothing changes; success closes the create modal and reloads; failure leaves `showCreate`, the cache and `loading` unchanged |
| InvestmentPage.Page.HandleUpdate | src/app/dashboard/investments/page.tsx:47-56 | without a token nothing changes; success closes the update modal and reloads; failure changes nothing but the log |
| InvestmentPage.Page.HandleDelete | src/app/dashboard/investments/page.tsx:58-66 | without a token nothing changes; one delete request, then one reload exactly on success; failure keeps the cache |
| InvestmentPage.Page.MarkAsInvested | src/app/dashboard/investments/page.tsx:68-76 | the same for the mark-invested request |
| InvestmentPage.Page.DistributeProfit | src/app/dashboard/investments/page.tsx:78-86 | the same for the distribute request, which carries `{totalProfit: profit}` for cycle `id` |
| InvestmentPage.Page.AssignPaidPayments | src/app/dashboard/investments/page.tsx:88-96 | the same for the assign-paid request |
| InvestmentPage.Page.OpenCreate | src/app/dashboard/investments/page.tsx:107 | the create modal opens |
| InvestmentPage.Page.CloseCreate | src/app/dashboard/investments/page.tsx:127 | the create modal closes |
| InvestmentPage.Page.OpenEdit | src/app/dashboard/investments/page.tsx:118 | Edit selects the cycle and opens the update modal |
| InvestmentPage.Page.CloseUpdate | src/app/dashboard/investments/page.tsx:135 | the update modal closes |
| InvestmentPage.Page.OpenDistribute | src/app/dashboard/investments/page.tsx:121 | Distribute selects the cycle and opens the distribute modal |
| InvestmentPage.Page.CloseDistribute | src/app/dashboard/investments/page.tsx:143 | the distribute modal closes |
| InvestmentPage.Page.SubmitUpdate | src/app/dashboard/investments/page.tsx:136 | the update modal's submit updates the selected cycle; the modal stays open exactly when the update failed |
| InvestmentPage.Page.SubmitDistribute | src/app/dashboard/investments/page.tsx:144-147 | the distribute modal closes after the call whether or not it succeeded, and also without a token; the request is for the selected cycle |
| CycleTable.DisplayName | src/app/dashboard/investments/components/CycleTable.tsx:44 | a missing or empty name shows as "Unnamed"; the shown name is never empty |
| CycleTable.Badges | src/app/dashboard/investments/components/CycleTable.tsx:54-61 | "Invested" if and only if invested, else "Pending"; "Distributed" is added if and only if distributed |
| CycleTable.Actions | src/app/dashboard/investments/components/CycleTable.tsx:70-88 | Edit, Delete and Assign Paid always; "Mark Invested" if and only if not invested; "Distribute" if and only if invested and not distributed; layout order |
| CycleTable.RenderRow | src/app/dashboard/investments/components/CycleTable.tsx:42-90 | a row shows the cycle's id, display name, amounts, badges, start date and actions, and the end date exactly when it is a non-empty string |
| CycleTable.Render | src/app/dashboard/investments/components/CycleTable.tsx:24-41 | loading wins over the empty message; otherwise one row per cycle, in input order |
| CycleTable.ActionsFollowPhase | src/app/dashboard/investments/components/CycleTable.tsx:76-85 | the forward transitions follow the Pending/Invested/Distributed phase, and "Mark Invested" and "Distribute" are never both offered |
| CycleTable.DistributedButPending | src/app/dashboard/investments/components/CycleTable.tsx:54-80 | a cycle flagged distributed but not invested shows "Pending" and "Distributed" and is offered "Mark Invested" |
| CycleTable.RowShowsFlags | src/app/dashboard/investments/components/CycleTable.tsx:42-88 | equal rows come from cycles with the same id and the same two flags |
| StatsCards.FoldIsSum | src/app/dashboard/investments/components/StatsCards.tsx:10 | the left fold of `reduce` from `acc` is `acc` plus the deposit sum |
| StatsCards.DepositSumAppend | src/app/dashboard/investments/components/StatsCards.tsx:10 | the deposit sum of `xs + ys` is the sum of the two sums |
| StatsCards.DepositSumBounds | src/app/dashboard/investments/components/StatsCards.tsx:10 | with no negative deposit the total is at least zero and at least every single deposit |
| StatsCards.StatsOf | src/app/dashboard/investments/components/StatsCards.tsx:10-45 | total is the list length; the invested and distributed counts are the sizes of the two filters and at most the total; the deposit card is the sum; an empty list shows zeros |
| StatsCards.StatsAppend | src/app/dashboard/investments/components/StatsCards.tsx:10-36 | every card of two lists together is the sum of that card for each list |
| StatsCards.InvestedCountMembers | src/app/dashboard/investments/components/StatsCards.tsx:27 | the invested count counts exactly the listed cycles that are invested |
| CreateCycleModal.BuildPayload | src/app/dashboard/investments/components/CreateCycleModal.tsx:24-34 | the name as typed, a start date always (the clock when none was given), an end date only when one was given, and `isInvested` always true |
| CreateCycleModal.Submit | src/app/dashboard/investments/components/CreateCycleModal.tsx:6-43 | submission is refused with "Name is required" exactly when the name is empty; otherwise `onSubmit` gets `BuildPayload` |
| CreateCycleModal.SubmittedPayloadShape | src/app/dashboard/investments/components/CreateCycleModal.tsx:7-33 | a non-empty name is submitted untrimmed, with a start date, already marked invested |
| CreateCycleModal.BlankNameAccepted | src/app/dashboard/investments/components/CreateCycleModal.tsx:7 | a name of spaces passes the schema, because the length test does not trim |
| UpdateCycleModal.OrZero | src/app/dashboard/investments/components/UpdateCycleModal.tsx:33-34 | `x \|\| 0` on a number gives back `x` |
| UpdateCycleModal.DefaultValues | src/app/dashboard/investments/components/UpdateCycleModal.tsx:31-38 | the form opens with the cycle's name or "", its deposit and profit, its two flags, and the end date cut before its first `T` (or "" when absent) |
| UpdateCycleModal.PayloadName | src/app/dashboard/investments/components/UpdateCycleModal.tsx:44 | the name is sent trimmed, and not at all when trimming leaves it empty |
| UpdateCycleModal.BuildPayload | src/app/dashboard/investments/components/UpdateCycleModal.tsx:42-50 | deposit and profit pass through; both flags are always sent, false when absent; an end date is sent only when one was given |
| UpdateCycleModal.BlankNameNotSent | src/app/dashboard/investments/components/UpdateCycleModal.tsx:44 | a whitespace-only name is not sent |
| UpdateCycleModal.UnchangedFormKeepsState | src/app/dashboard/investments/components/UpdateCycleModal.tsx:31-50 | submitting the form as it opened resends the cycle's deposit, profit and flags, and its end date cut to the day |
| UpdateCycleModal.PayloadNameIsTrimmed | src/app/dashboard/investments/components/UpdateCycleModal.tsx:44 | the sent name is already trimmed |
| UpdateCycleModal.FlagsSentIndependently | src/app/dashboard/investments/components/UpdateCycleModal.tsx:47-48 | the form can send distributed without invested |
| DistributeProfitModal.Accepted | src/app/dashboard/investments/components/DistributeProfitModal.tsx:16-20 | an amount is accepted exactly when it parses and is above zero |
| DistributeProfitModal.NonPositiveRejected | src/app/dashboard/investments/components/DistributeProfitModal.tsx:17 | zero or a negative amount is rejected |
| DistributeProfitModal.Modal.SubmitDisabled | src/app/dashboard/investments/components/DistributeProfitModal.tsx:61-62 | the Distribute button is disabled exactly while loading or while the input is empty; `HandleSubmit` requires it enabled |
| DistributeProfitModal.Modal.CancelDisabled | src/app/dashboard/investments/components/DistributeProfitModal.tsx:55 | Cancel is disabled exactly while loading, that is from a started submit until `Settle` |
| DistributeProfitModal.Modal.constructor | src/app/dashboard/investments/components/DistributeProfitModal.tsx:12-13 | empty input, not loading, submit disabled |
| DistributeProfitModal.Modal.SetProfit | src/app/dashboard/investments/components/DistributeProfitModal.tsx:46 | the input sets the profit text |
| DistributeProfitModal.Modal.HandleSubmit | src/app/dashboard/investments/components/DistributeProfitModal.tsx:15-24 | entered only from the enabled button; an unparsable or non-positive amount raises the alert, never reaches `onSubmit` and leaves both buttons enabled; a valid one sets `loading`, calls `onSubmit` once with the parsed value and leaves both buttons disabled; only positive amounts are ever submitted |
| DistributeProfitModal.Modal.Settle | src/app/dashboard/investments/components/DistributeProfitModal.tsx:25-27 | `loading` is false afterwards, also when `onSubmit` throws; Cancel is enabled again, and the submit button too unless the input is empty |
| DashboardPage.FilteredUsers | src/app/dashboard/page.tsx:133-150 | exactly the users matching both the search and the status filter, each as often as in the input, sorted by `createdAt` newest first |
| DashboardPage.TiesKeepListOrder | src/app/dashboard/page.tsx:149 | the sort is stable: users with the same `createdAt` instant keep, among themselves, their order in the fetched list, as `Array.prototype.sort` does since ES2019 |
| DashboardPage.EmptySearchMatches | src/app/dashboard/page.tsx:136-139 | the empty search matches every user |
| DashboardPage.EmptySearchAllIsPermutation | src/app/dashboard/page.tsx:136-149 | with the empty search and "all", the overview is a reordering of all users |
| DashboardPage.StatusFiltersExact | src/app/dashboard/page.tsx:141-145 | `paid`, `pending` and `fine` keep exactly the users with `totalPaid`, `pendingCount` or `totalFine` above zero |
| DashboardPage.NameSearchIgnoresCase | src/app/dashboard/page.tsx:137-138 | a user whose name or father's name contains a term is selected by every search that lower-cases to the same string as that term |
| DashboardPage.MonthName | src/app/dashboard/page.tsx:71-72 | the `MMM` token is a three-letter month name |
| DashboardPage.PadZeros | src/app/dashboard/page.tsx:71-72 | the `dd` and `yyyy` tokens are at least their width and only add zeros |
| DashboardPage.MonthDay | src/app/dashboard/page.tsx:71 | `MMM dd` holds no comma, line break or quote |
| DashboardPage.YearPart | src/app/dashboard/page.tsx:72 | the year part holds no comma, line break or quote |
| DashboardPage.LongDate | src/app/dashboard/page.tsx:72 | `MMM dd, yyyy` is the month and day, a comma, then the year part: it holds a comma |
| DashboardPage.LastPaymentCell | src/app/dashboard/page.tsx:71 | a missing or empty last-payment date is "—"; the cell never holds a comma, line break or quote |
| DashboardPage.NumberCellPlain | src/app/dashboard/page.tsx:64-70 | a number's digits hold no comma, line break or quote |
| DashboardPage.CsvRow | src/app/dashboard/page.tsx:63-73 | a row has as many cells as the header, and row `idx` starts with `idx + 1` |
| DashboardPage.CsvLines | src/app/dashboard/page.tsx:51-77 | the header line, then one line per user in order, cells joined with "," and nothing quoted |
| DashboardPage.CsvContent | src/app/dashboard/page.tsx:75-77 | the data-URI prefix, then the lines joined with "\n" |
| DashboardPage.HeaderReadsBack | src/app/dashboard/page.tsx:51-77 | the header line splits back into its nine fields |
| DashboardPage.GeneratedCellsPlain | src/app/dashboard/page.tsx:64-71 | the cells the export makes itself, other than the joining date, hold no comma, line break or quote |
| DashboardPage.JoinedDateSplitsRow | src/app/dashboard/page.tsx:72-77 | as written, a row whose user text holds no comma splits into ten fields, with the year in a tenth column |
| DashboardPage.EveryRowMisaligned | src/app/dashboard/page.tsx:51-77 | as written, such a data line never has as many fields as the header |
| DashboardPage.HeaderLineSingle | src/app/dashboard/page.tsx:51-77 | the as-written header line holds no line break |
| DashboardPage.PlainRowSingle | src/app/dashboard/page.tsx:63-77 | an as-written data line holds no line break when the user's name, father's name and phone hold none |
| DashboardPage.PlainLinesSingle | src/app/dashboard/page.tsx:75-77 | with no line break in any user's text, no as-written line holds one |
| DashboardPage.ContentMisaligned | src/app/dashboard/page.tsx:75-77 | as written, the downloaded content, split after the prefix on "\n", has the header line and one line per user; a user's line with plain name, father's name and phone splits on "," into ten fields against the header's nine |
| DashboardPage.CsvRows | src/app/dashboard/page.tsx:63-73 | one row of cells per user, in order |
| DashboardPage.QuotedHeaderReadsBack | src/app/dashboard/page.tsx:51-61 | the quoted header line reads back as the nine headers and holds no line break |
| DashboardPage.RowSingleLine | src/app/dashboard/page.tsx:63-73 | a row holds no line break when the user's own text holds none |
| DashboardPage.QuotedDataLines | src/app/dashboard/page.tsx:63-77 | corrected: each user's quoted line reads back as exactly its nine cells, commas inside them included, and has no line break when the user's text has none |
| DashboardPage.QuotedCsvLines | src/app/dashboard/page.tsx:77 | corrected: the quoted header, then the quoted data lines |
| DashboardPage.QuotedCsvContent | src/app/dashboard/page.tsx:75-77 | corrected: the same prefix, then the quoted lines joined with "\n" |
| DashboardPage.QuotedLinesSingle | src/app/dashboard/page.tsx:77 | with no line break in any user's text, no corrected line holds one |
| DashboardPage.QuotedContentReadsBack | src/app/dashboard/page.tsx:50-77 | corrected, when no user's name, father's name or phone holds a line break: splitting the content after the prefix on "\n" gives one line more than there are users; the first reads back as the headers, and line `i + 1` as user `i`'s nine cells |
| DashboardPage.Dashboard.constructor | src/app/dashboard/page.tsx:92-99 | no summary, no users, loading, no error, empty search, filter "all" |
| DashboardPage.Dashboard.SetSearch | src/app/dashboard/page.tsx:192 | the search box sets the search |
| DashboardPage.Dashboard.SetFilter | src/app/dashboard/page.tsx:202 | the select sets the filter |
| DashboardPage.Dashboard.FetchData | src/app/dashboard/page.tsx:104-130 | nothing happens unless the session is authenticated and there is a token; then both requests go out, the answers replace summary and users, or the error message (or "Failed to load dashboard") is recorded and the old data kept; `loading` ends false either way |
| DashboardPage.Dashboard.ViewOf | src/app/dashboard/page.tsx:153-155 | spinner exactly while the session or the data loads, then the sign-in prompt without a session, then a non-empty error, otherwise the filtered users |
| DashboardPage.ExportIsWhatIsShown | src/app/dashboard/page.tsx:214 | while the overview is on screen, the export (as written and corrected) holds exactly the overview's rows, filtered and sorted as shown, not all users |
| DashboardPage.ExportedRowsReadBack | src/app/dashboard/page.tsx:214 | corrected, when no loaded user has a line break in a name or the phone: the download splits into the header line and one line per row on screen, and line `i + 1` reads back as the nine cells of the `i`-th row shown |
| CsvQuoting.ParseQuotedLine | src/app/dashboard/page.tsx:77 | corrected encoding: any non-empty list of cells, quoted and joined with ",", parses back to the same cells |
| CsvQuoting.QuotedLine | src/app/dashboard/page.tsx:77 | corrected encoding: a quoted line reads back as its cells, and holds no line break when no cell does |
| CsvQuoting.QuotedLines | src/app/dashboard/page.tsx:77 | corrected encoding: one line per row, each reading back as its row |
| UsersTable.FilterUsers | src/app/dashboard/users/components/UsersTable.tsx:43-53 | an order-preserving subsequence of the users; a user is in it exactly when it matches both the search and the role, and then as often as in the list |
| UsersTable.EmptySearchKeepsAll | src/app/dashboard/users/components/UsersTable.tsx:45-50 | the empty search with role "all" lists every user, in order |
| UsersTable.SearchIgnoresCaseOfName | src/app/dashboard/users/components/UsersTable.tsx:45-49 | a user whose name or email contains a term is selected by every search that lower-cases to the same string as that term |
| UsersTable.MissingFieldsCannotMatch | src/app/dashboard/users/components/UsersTable.tsx:47-49 | a user without a name or an email matches only through the phone or the remaining defined field |
| UsersTable.RemoveById | src/app/dashboard/users/components/UsersTable.tsx:60 | delete removes exactly the users with that id and keeps the others, in order and with their counts |
| UsersTable.RemoveAbsentId | src/app/dashboard/users/components/UsersTable.tsx:60 | deleting an id no user has changes nothing |
| UsersTable.ReplaceById | src/app/dashboard/users/components/UsersTable.tsx:189 | update keeps the length and the ids, replaces exactly the entries with the updated id, and leaves the rest alone |
| UsersTable.ReplaceIdempotent | src/app/dashboard/users/components/UsersTable.tsx:189 | replacing twice with the same user is replacing once |
| UsersTable.RemoveAfterReplace | src/app/dashboard/users/components/UsersTable.tsx:189 | the users with other ids are the same before and after a replacement |
| UsersTable.Table.Filtered | src/app/dashboard/users/components/UsersTable.tsx:43-53 | the shown rows are a subsequence of the held users |
| UsersTable.Table.constructor | src/app/dashboard/users/components/UsersTable.tsx:32-39 | the table starts with the initial users, no search, role "all", no modal open, and shows every user |
| UsersTable.Table.SetSearchTerm | src/app/dashboard/users/components/UsersTable.tsx:87 | the search box sets the term |
| UsersTable.Table.SetFilterRole | src/app/dashboard/users/components/UsersTable.tsx:92 | the select sets the role |
| UsersTable.DeleteAsWritten | src/app/dashboard/users/components/UsersTable.tsx:55-66 | as the code stands: a declined prompt does nothing; a confirmed delete keeps the list and yields exactly the error toast, since the service has no `deleteUser` and the call throws into the `catch` |
| UsersTable.DeleteIntended | src/app/dashboard/users/components/UsersTable.tsx:55-66 | as intended: a declined prompt does nothing; a confirmed delete sends one delete request, then either removes the users with that id and shows the success toast, or keeps the list and shows the error toast |
| UsersTable.DeleteNeverRemoves | src/app/dashboard/users/components/UsersTable.tsx:59 | confirming the delete of a listed user sends no request and keeps the user as written, while the intended handler removes it when the server accepts |
| UsersTable.Table.HandleDelete | src/app/dashboard/users/components/UsersTable.tsx:55-66 | the table's new list and effect log are those of `DeleteAsWritten` |
| UsersTable.Table.HandleDeleteIntended | src/app/dashboard/users/components/UsersTable.tsx:55-66 | the table's new list and effect log are those of `DeleteIntended` |
| UsersTable.Table.OpenUpdateModal | src/app/dashboard/users/components/UsersTable.tsx:68-71 | selects the user and opens the update modal |
| UsersTable.Table.OpenPaymentModal | src/app/dashboard/users/components/UsersTable.tsx:73-76 | selects the user and opens the payment modal |
| UsersTable.Table.CloseUpdateModal | src/app/dashboard/users/components/UsersTable.tsx:187 | the update modal closes |
| UsersTable.Table.ClosePaymentModal | src/app/dashboard/users/components/UsersTable.tsx:199 | the payment modal closes |
| UsersTable.Table.OnUpdate | src/app/dashboard/users/components/UsersTable.tsx:188-191 | the list becomes `ReplaceById` of the old list and the update modal closes |
| UsersTable.Table.OnPaymentSuccess | src/app/dashboard/users/components/UsersTable.tsx:200-204 | one refetch request; the list becomes the refetched list wholesale, or stays as it was when the refetch fails |
| PaymentModal.NaNPassesCheck | src/app/dashboard/users/components/PaymentModal.tsx:26 | text that is not a number passes the check |
| PaymentModal.Modal.constructor | src/app/dashboard/users/components/PaymentModal.tsx:22-23 | empty amount, not paying |
| PaymentModal.Modal.SetAmount | src/app/dashboard/users/components/PaymentModal.tsx:64 | the input sets the amount |
| PaymentModal.Modal.HandlePaymentSubmit | src/app/dashboard/users/components/PaymentModal.tsx:25-39 | an empty or non-positive amount shows the error toast and sends nothing; a press while paying returns at once; otherwise `isPaying` is set and one request goes out with `{userId: user.id, amount: Number(amount)}`; no request ever carries an amount of zero or below |
| PaymentModal.Modal.FinishPayment | src/app/dashboard/users/components/PaymentModal.tsx:41-50 | success shows the toast, clears the amount, then calls `onPaymentSuccess`, then `onClose`; failure shows the error toast and keeps the amount; `isPaying` is false either way |
| PaymentModal.Modal.Cancel | src/app/dashboard/users/components/PaymentModal.tsx:89 | Cancel closes the modal only when not paying |
| SettingsPage.CheckMessage | src/app/dashboard/settings/page.tsx:13-20 | "Please fill in both fields" exactly when either field is empty; "Passwords do not match" exactly when both are filled and differ; no message exactly when they are equal and non-empty |
| SettingsPage.Settings.constructor | src/app/dashboard/settings/page.tsx:8-10 | both fields empty, not saving |
| SettingsPage.Settings.SetPassword | src/app/dashboard/settings/page.tsx:46 | the first input sets the password |
| SettingsPage.Settings.SetConfirmPassword | src/app/dashboard/settings/page.tsx:57 | the second input sets the confirmation |
| SettingsPage.Settings.HandlePasswordChange | src/app/dashboard/settings/page.tsx:12-24 | a failed check shows its toast and sends nothing; otherwise `isSaving` is set and only the password, never the confirmation, is sent; no empty password is ever sent |
| SettingsPage.Settings.Finish | src/app/dashboard/settings/page.tsx:25-33 | success toasts and clears both fields; failure toasts and keeps them; `isSaving` is false either way |

## Left out

- JSX rendering, styling and animation are not modelled. Rendering appears only where it decides something: which view the dashboard shows, which table rows, badges and buttons appear, and which buttons are disabled.
- The service modules (`investmentService`, `userService`, `dashboardService`, `paymentService`) are not part of this model. Each call is an opaque outcome passed in as a parameter, except the call of the missing `userService.deleteUser`, which always throws (see Findings). `getAllCycles` giving `[]` when the body has no data is kept, in `InvestmentPage.Reloaded`.
- `authOptions.ts`, `utils.ts` (image upload, `cn`), the checkout page, `UserInitializer.tsx`, `next.config.ts` and the middleware `matcher` config are not part of this model. They are foreign-library glue, HTTP or configuration.
- Floating point is not modelled. Cycle amounts and parsed amounts are reals. Dashboard money is a whole number rendered in decimal. `toFixed`, `toLocaleString` and `formatBDT` are display only.
- UpdateCycleModal.OrZero: `x || 0` also turns NaN into 0. NaN is not a real, so the model keeps `x` unchanged.
- `parseFloat` and `Number` are parameters (`parse`, `toNumber`), with `None` standing for NaN. Their text-to-number rules are not modelled.
- Dates are parameters too: `new Date(s).toISOString()` (`toIso`), the clock (`nowIso`), `getTime()` (`time`) and the calendar day date-fns reads in the viewer's time zone (`dateOf`). An invalid date, which makes date-fns throw, is not modelled.
- Text: `toLowerCase` is modelled for ASCII letters only. Strings are sequences of characters, without Unicode case mapping or normalisation.
- Concurrency is not modelled: `Promise.all` is treated as one combined outcome, and the investments page's handlers, including the un-awaited `loadCycles()` calls, run one at a time. Stale React closures and interleaved clicks are not modelled. A busy-flag handler is split only at its own `await`.
- Browser calls are left out. The `confirm` answer is a parameter. `alert`, toasts and callbacks are log entries. `encodeURI`, the download link and its click are not modelled. In particular `encodeURI` leaves `#` unescaped, so in the `data:` URI the first header `#` (src/app/dashboard/page.tsx:51) may start a fragment and cut the download short; this would hit the corrected export too, and the model stops at the content string before encoding.
- The session token is taken as given: a missing token is `""` (investments page) or `None` (users table), and it is passed on as is, as `token as string` does.
- An unauthenticated visitor to the dashboard keeps seeing the spinner, because `loading` starts true and only the fetch clears it. `Dashboard.ViewOf` states this behaviour; it is not listed as a finding.
- UsersTable.Table.OnPaymentSuccess: the refetch answer is `data?.data` (src/app/services/userService.ts:25), which is `undefined` when the body has no `data`; `setUsers(undefined)` then makes the next render throw at `users.filter`. The reply here is either a list or a failure, so that crash is not modelled.
- DashboardPage.Dashboard.FetchData: the same holds for `getAllUsers` and `getDashboardSummery` (src/app/services/dashboardService.ts:9-17); a users answer without `data` stores `undefined` and the next render throws at `users.filter`, while a summary answer without `data` only hides the summary cards (src/app/dashboard/page.tsx:172). A `Fetched` reply always carries a summary and a list, so neither case is modelled.
- DashboardPage.QuotedContentReadsBack (and DashboardPage.ExportedRowsReadBack): the read-back is proved only when no user's name, father's name or phone holds a line break. Quoting keeps such a field intact, but splitting the file on "\n" before parsing does not, so a reader of quoted multi-line fields would be needed for those users.
- A payment amount that is not a number passes the check and is sent as NaN (`PaymentModal.NaNPassesCheck`). The number input makes this input unlikely, so it is not listed as a finding.

## Findings

| source | as written | input that shows it | evidently intended | confidence | as-written member | corrected member |
|---|---|---|---|---|---|---|
| src/app/dashboard/page.tsx:72-77 | the "Joined" cell is `format(date, "MMM dd, yyyy")`; cells are joined with "," and nothing is quoted | any user, e.g. one who joined on 5 March 2024 with plain name, father's name and phone: the row ends `...,Mar 05, 2024`, which reads back as ten fields under a nine-field header | when no user's name, father's name or phone holds a line break, the export splits into one line per row and every line reads back as its nine cells, for example with each cell quoted as in section 2 of RFC 4180 | not executed | DashboardPage.ContentMisaligned | DashboardPage.QuotedContentReadsBack |
| src/app/dashboard/users/components/UsersTable.tsx:59 | `handleDelete` calls `userService.deleteUser`, but the imported service (src/app/services/userService.ts:3-28) defines only `getMe`, `updatePhoto` and `getAllUsers`, so the line also fails type checking | any user, with the prompt confirmed: calling the missing method throws a TypeError, no request is sent, the user stays in the list and the "Failed to delete user" toast appears | a delete request for that id, and on success the user removed from the list with the success toast | not executed | UsersTable.Table.HandleDelete | UsersTable.Table.HandleDeleteIntended |
