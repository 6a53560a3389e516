# AgroLink admin panel — a Dafny model

This project models the client-side core of the AgroLink admin panel, a React
single-page application that administrators use to run the AgroLink
marketplace. The model covers:

- **the session** (`AuthProvider`): the token restored from `localStorage`,
  login behind an admin-only role gate, and logout;
- **the api module**: the request interceptor that attaches
  `Authorization: Bearer <token>`, and every request the exported api
  functions build (verb, path, query string, body, headers, response type);
- **the route guard** and **the login page**;
- **the layout's** menu selection by path prefix, and its logout;
- **the pages**:
  - pending document verifications, with their review modal and the rule
    that a rejection needs notes;
  - pending payouts, with their single-file proof upload;
  - the paginated users list, with search text and a role filter;
  - the paginated transaction history;
  - profit analytics, by date range and source type;
  - revenue analytics, with the spreadsheet export.

How the model is built:

- **Sources.** Each page is a `class` whose fields are the page's `useState`
  variables. Each handler is a `method` with `modifies` clauses and an
  `ensures` that gives the whole new state.
- **Awaits.** An asynchronous handler is split at its `await`:
  - a `Begin…` method covers the state changes before the await and
    returns the request sent;
  - a `Complete…` method takes the outcome as a parameter and covers the
    `try`/`catch`/`finally` after it. The outcome is a `Fetched` value
    (`Loaded(value)` or `Failed`); for login it is a `LoginOutcome`
    (`Responded(data)` or `Threw(serverMessage, message)`).
- **Rendering.** What a page renders is a function of its state.
- **Helpers.** The URL query-string builder, `localStorage`, JavaScript
  number-to-text conversion and `String.prototype.trim` are modelled as far
  as the core uses them.
- **Proved properties.** Examples:
  - a round trip from the query-string builder through a reference parser;
  - the decimal round trip;
  - per-id request paths are injective;
  - the menu key is selected exactly by its prefix;
  - the route guard agrees with the stored token;
  - the page invariants are kept, for example that the modal is open exactly
    when a record is selected, and that at most one proof file is held.

**Two points of the session code worth knowing:**

- **A token can be held with no user.** At start the token is restored from
  the store while `user` starts `null` (`src/contexts/AuthContext.jsx`
  lines 9-10). So after a reload a token is held with no user. The invariant
  proved is `Auth.AuthProvider.Synced`: while this provider is the store's
  only writer, the in-memory token equals the stored `"adminToken"`.
- **Role gate.** The gate reads `response.data.data.role`, a field of the
  envelope beside `token` and `user`. It does not read `user.role`. The
  model keeps this (`Auth.RoleReadFromEnvelope`).

## Model

| member | source | states |
|---|---|---|
| Api.Intercept | src/services/api.js:10-18 | the header `Authorization: Bearer <token>` is attached exactly when the stored `adminToken` is present and non-empty; otherwise the request goes out unchanged, and no other header changes |
| Api.LoginAdmin | src/services/api.js:25-28 | a POST to `/public/auth/login` whose body holds exactly the given email and password |
| Api.GetDashboardStats | src/services/api.js:30-32 | a GET of `/admin/dashboard-stats` |
| Api.GetPendingPayouts | src/services/api.js:34-36 | a GET of `/admin/payouts/pending` |
| Api.MarkPayoutAsCompleted | src/services/api.js:40-46 | a multipart POST of the form data, whose path names exactly the given payout id |
| Api.GetPendingVerifications | src/services/api.js:48-50 | a GET of `/admin/verifications/pending` |
| Api.ReviewVerification | src/services/api.js:54-57 | a JSON POST of the payload, whose path names exactly the given verification id |
| Api.PathRoundTrip | src/services/api.js:41 | the id is recovered from between the prefix and suffix of a per-id path |
| Api.PerIdPathsInjective | src/services/api.js:40-57 | different payout ids give different completion paths, and different verification ids give different review paths |
| Api.GetAllTransactions | src/services/api.js:59-61 | the query string carries `page` then `limit`, which default to 1 and 10 |
| Api.GetAllUsers | src/services/api.js:63-72 | the query string is what successive appends build: `page` and `limit` (defaults 1 and 10), then `search` and `role` only when non-empty |
| Api.GetRevenueAnalytics | src/services/api.js:74-80 | each date bound is appended only when non-empty; with neither bound there is an empty query |
| Api.ExportTransactions | src/services/api.js:82-86 | a GET of `/admin/transactions/export` that expects a blob |
| Api.UsersQueryLookup | src/services/api.js:63-72 | reading the users query back gives the page and limit numbers, and gives `search` and `role` exactly when they are non-empty |
| Api.RevenueQueryLookup | src/services/api.js:74-80 | reading the revenue query back gives each bound exactly when it is non-empty |
| Api.LookupCons | src/services/api.js:63-72 | the first pair under a name is the head's value when the name matches, and otherwise is found in the rest |
| Query.SearchParams.Append | src/services/api.js:65-68 | a pair is added at the end; the earlier pairs are unchanged |
| Query.IndexOf | src/services/api.js:63-72 | finds the first occurrence of a separator, or reports that there is none |
| Query.ParseSerialize | src/services/api.js:63-72 | parsing the serialized pairs gives back the same pairs in the same order |
| Query.SplitSerialize | src/services/api.js:63-72 | splitting a serialized list at `&` gives one field per pair |
| Query.ParseFieldsOfFields | src/services/api.js:63-72 | each field parses back to its pair |
| Query.ParseFieldOfField | src/services/api.js:63-72 | a single `name=value` field parses back to its pair |
| Text.NatDigits | src/services/api.js:60 | the decimal digits of a natural number: non-empty, all digits, with no leading zero |
| Text.Decimal | src/services/api.js:60 | an integer's text is digits, with a leading `-` exactly for negatives |
| Text.DecimalRoundTrip | src/services/api.js:60 | the number shown in a query is read back as the same integer |
| Text.NatDigitsValue | src/services/api.js:60 | the digits of a natural number have that number as their value |
| Text.TrimEmptyIffBlank | src/pages/Verifications.jsx:56 | `notes.trim() === ''` holds exactly when the notes consist only of whitespace |
| Text.TrimStartDropsRun | src/pages/Verifications.jsx:56 | trimming the start gives the rest of the string after a leading run of whitespace |
| Text.TrimStartShape | src/pages/Verifications.jsx:56 | trimming the start gives the rest of the string after a whitespace run. That rest is empty exactly for a blank string, and otherwise starts with non-whitespace |
| Text.TrimEndKeepsHead | src/pages/Verifications.jsx:56 | trimming the end of a string that starts with non-whitespace keeps a non-empty prefix that ends in non-whitespace |
| Auth.Judge | src/contexts/AuthContext.jsx:19-37 | a session is granted exactly for a response whose envelope role is `admin`. Any other response gives the access-denied message. A thrown error shows the server's message when it is truthy, and otherwise the error's own message |
| Auth.RoleReadFromEnvelope | src/contexts/AuthContext.jsx:22-26 | an admin `user` inside an envelope without `role` is refused, and an envelope role of `admin` is accepted whatever the user's own role |
| Auth.AuthProvider.constructor | src/contexts/AuthContext.jsx:9-12 | the token comes from the store, there is no user, the provider is idle, there is no error, and the store and token agree |
| Auth.AuthProvider.BeginLogin | src/contexts/AuthContext.jsx:15-19 | sets `loading`, clears `error`, and issues the login request |
| Auth.AuthProvider.CompleteLogin | src/contexts/AuthContext.jsx:19-40 | success iff granted. Success stores the token and user in memory and the same token under `adminToken`. Failure changes neither and sets `error`. `loading` ends false, and agreement with the store is kept |
| Auth.AuthProvider.Login | src/contexts/AuthContext.jsx:15-41 | the whole login. It returns true exactly for an admin response, and the store and token still agree afterwards |
| Auth.AuthProvider.Logout | src/contexts/AuthContext.jsx:44-48 | no token, no user, and `adminToken` is removed from the store; nothing else in the store changes |
| Auth.LogoutTwice | src/contexts/AuthContext.jsx:44-48 | logging out is idempotent |
| Auth.LogoutDropsHeader | src/services/api.js:10-18 | after a logout (`src/contexts/AuthContext.jsx` lines 44-48) the interceptor adds no `Authorization` header: any request goes out exactly as built |
| ProtectedRoute.Render | src/components/ProtectedRoute.jsx:6-17 | the children are rendered exactly when the token is truthy; otherwise there is a replacing redirect to `/login` that carries the location it came from |
| ProtectedRoute.GuardAgreesWithInterceptor | src/components/ProtectedRoute.jsx:6-17 | while the provider's token mirrors the store, the guard lets a page through exactly when the interceptor would attach a bearer token |
| ProtectedRoute.OtherTabLogout | src/components/ProtectedRoute.jsx:6-17 | with two providers on one store, a logout by one leaves the other holding its token: its guard still renders the page while its interceptor sends the request with no header, and it is no longer in sync |
| LoginPage.Render | src/pages/Login.jsx:15-69 | redirects home exactly when the user is signed in. Otherwise the form shows the alert exactly when `error` is truthy, and the button is busy while loading |
| LoginPage.OnFinish | src/pages/Login.jsx:19-26 | logs in with the submitted values and navigates to `/` exactly when login succeeded. On success the new token, user and stored token are given and `error` is cleared. On failure token, user and store are unchanged and `error` holds the message. The store and token still agree afterwards |
| AdminLayout.CurrentKey | src/layouts/AdminLayout.jsx:33-52 | the selected key is one of the six menu keys, and a page key is chosen only when the path starts with that page's route |
| AdminLayout.CurrentKeyExact | src/layouts/AdminLayout.jsx:33-52 | each page key is chosen exactly when the path starts with its route, and the dashboard key exactly when no route prefix matches |
| AdminLayout.CurrentKeyExamples | src/layouts/AdminLayout.jsx:33-88 | nested paths select their section, and `/profit`, which has no menu entry, falls back to the dashboard |
| AdminLayout.HandleLogout | src/layouts/AdminLayout.jsx:25-28 | logs out (no token, no user, and only `adminToken` removed from the store) and goes to `/login`. Only token, user and store may change |
| Verifications.NotesMissing | src/pages/Verifications.jsx:56 | a review is refused exactly when it is a rejection whose notes are absent or whitespace only |
| Verifications.RejectionNeedsNotes | src/pages/Verifications.jsx:56-59 | empty, blank and missing notes on a rejection are refused, while real notes, or an approval without notes, pass |
| Verifications.VerificationsPage.constructor | src/pages/Verifications.jsx:10-18 | no rows, loading, no error, the modal closed, and the invariant established |
| Verifications.VerificationsPage.BeginFetch | src/pages/Verifications.jsx:21-24 | sets `loading` and leaves `error` as it was (this fetch never clears it) |
| Verifications.VerificationsPage.CompleteFetch | src/pages/Verifications.jsx:24-31 | success replaces the rows; failure sets the load error; `loading` ends false |
| Verifications.VerificationsPage.ShowModal | src/pages/Verifications.jsx:40-44 | opens the modal on the record, with the form reset to "approved" and empty notes |
| Verifications.VerificationsPage.HandleCancel | src/pages/Verifications.jsx:46-50 | closes the modal, clears the selection and resets the form |
| Verifications.VerificationsPage.SubmitReview | src/pages/Verifications.jsx:52-63 | missing notes on a rejection give only the error toast. Otherwise the submit starts and sends the review for the selected id, and with no record selected it fails with the failure toast |
| Verifications.VerificationsPage.CompleteReview | src/pages/Verifications.jsx:63-72 | success gives the success toast, closes the modal and refetches; failure keeps the modal open and gives the failure toast |
| Verifications.VerificationsPage.Render | src/pages/Verifications.jsx:114-120 | a spinner while loading, otherwise the error alert carrying `error`'s message when `error` is truthy, otherwise the table of rows |
| Payouts.PayoutsPage.constructor | src/pages/Payouts.jsx:15-24 | no rows, loading, the modal closed, no file, and the invariant established |
| Payouts.PayoutsPage.BeginFetch | src/pages/Payouts.jsx:27-30 | sets `loading` and requests the pending payouts |
| Payouts.PayoutsPage.CompleteFetch | src/pages/Payouts.jsx:30-37 | success replaces the rows; failure sets the load error; `loading` ends false |
| Payouts.PayoutsPage.ShowModal | src/pages/Payouts.jsx:47-50 | opens the modal on the payout and keeps the file list, which is empty whenever the modal was closed |
| Payouts.PayoutsPage.HandleCancel | src/pages/Payouts.jsx:52-56 | closes the modal, clears the selection and empties the file list |
| Payouts.PayoutsPage.BeforeUpload | src/pages/Payouts.jsx:84-89 | holds exactly the chosen file and blocks the automatic upload |
| Payouts.PayoutsPage.OnRemove | src/pages/Payouts.jsx:83 | empties the file list |
| Payouts.PayoutsPage.CompletePayout | src/pages/Payouts.jsx:58-69 | with no file it gives only the "upload the proof first" toast; otherwise it starts uploading and sends the single file under `transfer_proof_file` for the selected payout, which it returns as the target of the later toast |
| Payouts.PayoutsPage.CompleteUpload | src/pages/Payouts.jsx:69-78 | success gives the payee-named toast, closes the modal and refetches; failure keeps the modal and gives the failure toast |
| Payouts.Completed | src/pages/Payouts.jsx:70 | the success toast is `Payout untuk ` followed by the payee's name and then ` berhasil diselesaikan.` |
| Payouts.PayoutsPage.Render | src/pages/Payouts.jsx:145-151 | a spinner while loading, otherwise the error alert carrying `error`'s message when `error` is truthy, otherwise the table of payouts |
| Payouts.CompleteWithProof | src/pages/Payouts.jsx:47-91 | open, pick a file, submit and succeed: one request with that file, the success toast, and the modal closed and emptied |
| Users.UsersPage.constructor | src/pages/Users.jsx:11-17 | no rows, idle, page 1 of 10, and empty filters |
| Users.UsersPage.BeginFetch | src/pages/Users.jsx:19-21 | sets `loading`, clears `error`, and issues exactly the given query |
| Users.UsersPage.CompleteFetch | src/pages/Users.jsx:22-37 | success shows the server's rows, page and total with the requested page size; failure keeps everything and sets the load error |
| Users.UsersPage.Mount | src/pages/Users.jsx:41-45 | fetches page 1 with the current size and filters |
| Users.UsersPage.SetSearchText | src/pages/Users.jsx:41-45 | the search box (line 128) stores the text, and fetches page 1 exactly when the text changed |
| Users.UsersPage.SetRoleFilter | src/pages/Users.jsx:41-45 | the role select (line 116) stores the role, or "" when cleared, and fetches page 1 exactly when it changed |
| Users.UsersPage.HandleTableChange | src/pages/Users.jsx:48-50 | fetches the requested page and size with both filters kept |
| Users.UsersPage.View | src/pages/Users.jsx:134-143 | the error banner exactly when `error` is truthy, always above the table |
| Users.Send | src/pages/Users.jsx:23 | the request passes every query argument to `getAllUsers`, so no default applies |
| Users.FilterByRole | src/pages/Users.jsx:19-45 | choosing a role that returns three rows on page 1 shows exactly those rows, with no error |
| Transactions.TransactionsPage.constructor | src/pages/Transactions.jsx:15-24 | no rows, idle, and page 1 of 10 |
| Transactions.TransactionsPage.BeginFetch | src/pages/Transactions.jsx:26-28 | sets `loading`, clears `error`, and issues exactly the given page and size |
| Transactions.TransactionsPage.CompleteFetch | src/pages/Transactions.jsx:29-45 | success shows the server's rows, page and total with the requested size; failure keeps everything and sets the load error |
| Transactions.TransactionsPage.Mount | src/pages/Transactions.jsx:47-50 | fetches the current page and size |
| Transactions.TransactionsPage.HandleTableChange | src/pages/Transactions.jsx:53-55 | fetches exactly the new page and size |
| Transactions.TransactionsPage.View | src/pages/Transactions.jsx:123-140 | the error banner exactly when `error` is truthy, always above the table |
| Transactions.Send | src/pages/Transactions.jsx:30 | the query string carries the page and the page size as `page` and `limit` |
| Transactions.MountFresh | src/pages/Transactions.jsx:20-50 | a freshly mounted page fetches page 1 of 10 |
| Analytics.BoundText | src/pages/Profit.jsx:31-32 | a missing date bound is sent as "", and a present one as its formatted day |
| Analytics.Render | src/pages/Profit.jsx:134-140 | the spinner only while loading with no data; otherwise the error alert when `error` is truthy; otherwise the dashboard over the held data |
| Analytics.RefetchKeepsDashboard | src/pages/Revenue.jsx:115-121 | reloading over data already shown keeps the dashboard up |
| Profit.SourceLabel | src/pages/Profit.jsx:81 | in the table (and the chart at line 111), `utama` is labelled as service income, and every other source as e-commerce |
| Profit.RowKey | src/pages/Profit.jsx:217 | the row key is the date, a `-`, then the source type, each recoverable at its position |
| Profit.RowKeyInjective | src/pages/Profit.jsx:217 | distinct (date, source) rows get distinct table keys when source types carry no hyphen |
| Profit.ProfitPage.constructor | src/pages/Profit.jsx:19-25 | no data, loading, no error, no range, and every source |
| Profit.ProfitPage.BeginFetch | src/pages/Profit.jsx:27-34 | sets `loading`, clears `error`, and sends both bounds (or "") and the source |
| Profit.ProfitPage.CompleteFetch | src/pages/Profit.jsx:34-41 | success replaces the data; failure keeps it and sets the load error; `loading` ends false |
| Profit.ProfitPage.Mount | src/pages/Profit.jsx:44-47 | fetches with no dates and every source |
| Profit.ProfitPage.HandleDateChange | src/pages/Profit.jsx:50-57 | stores the range and fetches with its bounds, or none, and the current source |
| Profit.ProfitPage.HandleSourceChange | src/pages/Profit.jsx:60-67 | stores the source and fetches with it and the current range |
| Profit.ProfitPage.View | src/pages/Profit.jsx:134-140 | the page's spinner only while loading with no data; otherwise the alert with `error`'s message when it is truthy; otherwise the dashboard over the held data |
| Revenue.Slice | src/pages/Revenue.jsx:59 | `slice(0, n)` keeps a prefix of length `n`, or the whole of a shorter string |
| Revenue.ExportFilename | src/pages/Revenue.jsx:59 | the name is `transaksi_agrolink_` followed by the first ten characters of the ISO time (the day) and then `.xlsx`, or by the whole of a shorter string |
| Revenue.ExportFilenameByDay | src/pages/Revenue.jsx:59 | two exports get the same file name exactly when their timestamps fall on the same day |
| Revenue.Send | src/pages/Revenue.jsx:35 | the revenue request leaves out each absent bound |
| Revenue.RevenuePage.constructor | src/pages/Revenue.jsx:19-25 | no data, loading, no error, not exporting, and no range |
| Revenue.RevenuePage.BeginFetch | src/pages/Revenue.jsx:27-35 | sets `loading`, clears `error`, and sends both bounds (or "") |
| Revenue.RevenuePage.CompleteFetch | src/pages/Revenue.jsx:35-43 | success replaces the data; failure keeps it and sets the load error; `loading` ends false |
| Revenue.RevenuePage.Mount | src/pages/Revenue.jsx:77-80 | fetches with no bounds, the backend's default period |
| Revenue.RevenuePage.HandleDateChange | src/pages/Revenue.jsx:83-90 | stores the range and fetches with its bounds, or with none when cleared |
| Revenue.RevenuePage.BeginExport | src/pages/Revenue.jsx:46-49 | sets `exporting` and requests the export |
| Revenue.RevenuePage.CompleteExport | src/pages/Revenue.jsx:49-74 | success downloads under the dated file name with the success toast; failure gives no download and the failure toast; `exporting` ends false |
| Revenue.RevenuePage.View | src/pages/Revenue.jsx:115-121 | the page's spinner only while loading with no data; otherwise the alert with `error`'s message when it is truthy; otherwise the dashboard over the held data |
| Storage.LocalStorage.GetItem | src/contexts/AuthContext.jsx:9 | a stored key gives its value, and a missing key gives nothing |
| Storage.LocalStorage.SetItem | src/contexts/AuthContext.jsx:31 | sets exactly one key |
| Storage.LocalStorage.RemoveItem | src/contexts/AuthContext.jsx:47 | removes exactly one key |
| Ui.RenderList | src/pages/Users.jsx:134-143 | the error banner appears exactly when `error` is truthy, and the table is always shown with its rows, loading flag and pagination |

## Left out

- `src/pages/Dashboard.jsx`, `src/App.jsx` and `src/main.jsx` are not part of this model. They are routing, bootstrapping and a statistics view outside the core.
- The network is not modelled. The axios transport, the base URL join and the rejection handler of the interceptor are replaced by requests built as values. Each outcome (`Loaded`/`Failed`) is a parameter.
- Overlapping fetches are not modelled. Each `Complete…` step stands for the one in-flight request it answers, and there is no "last request wins" ordering.
- Malformed response envelopes are not modelled. A response without `data.data`, or one that leaves `data` undefined, is taken as a well-formed value.
- Percent-encoding of query values is not modelled. `Query.ParseSerialize` and the lookup lemmas require keys and values without `&`, and keys without `=`.
- Api.Intercept: returns the updated request instead of mutating the axios `config` object in place.
- Number and date formatting (`Intl.NumberFormat`, `toLocaleDateString`, `dayjs.format`) is not modelled. A picked day carries its `YYYY-MM-DD` text as given.
- The export download (`createObjectURL`, the temporary `<a>` element, `click`, `revokeObjectURL`) is reduced to the file name that would be downloaded.
- The clock behind `new Date().toISOString()` is a parameter of `Revenue.RevenuePage.CompleteExport`.
- Antd form validation rules are not modelled: the required email and password on login, the email format, and the required status on the review form. Their messages never reach the handlers.
- Table columns, tags, charts, statistics cards, icons and styling are left out. They carry no state.
- `console.error` logging is left out.
- `getProfitAnalytics` is not exported by `src/services/api.js`, yet `src/pages/Profit.jsx` line 5 imports it by name, and `src/App.jsx` line 14 imports that page. Under ES-module linking, a named import that the target module does not export is a link error, so as written the whole module graph fails to load and no page of the app renders. This follows from the import and export statements. The model treats each page on its own and describes the profit page as its code reads. Its call is modelled as the query it would pass (`Profit.ProfitQuery`), not as a request.
- `<React.StrictMode>` (`src/main.jsx` line 12) runs mount effects twice in development builds. The model describes a single run of each mount effect (the `Mount` methods).
- Auth.AuthProvider.Synced: other writers of `localStorage` (another tab of the same origin, the user clearing site data) are not modelled, and the provider does not listen for the `storage` event. `Synced` and `ProtectedRoute.GuardAgreesWithInterceptor` hold while this provider is the store's only writer; `ProtectedRoute.OtherTabLogout` shows how they part when it is not.
- Text.Decimal: JavaScript number width is not modelled. Numbers are unbounded integers, so exponent notation (`String(1e21)` is `"1e+21"`) and the loss of precision above 2^53 are not captured; page numbers and limits stay far below both.
- Identifiers are taken as strings. A numeric id is assumed to be interpolated into paths as its decimal text.
