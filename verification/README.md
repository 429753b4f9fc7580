# Expense tracker core, modelled in Dafny

This project models the core of a personal expense tracker. The system has two parts:

- a React client that keeps the user signed in with short-lived JWT access tokens, formats and parses Indian-rupee amounts, aggregates expenses by month and by category, validates three forms and shows errors in a pop-up;
- a FastAPI server that stores expenses, categories and investments per user, summarises them, authenticates users and produces simple rule-based spending insights.

Each core source file becomes one Dafny module. Files whose code changes state step by step become classes with `modifies` clauses; pure code becomes datatypes, functions and lemmas.

| file | module | what it holds |
|---|---|---|
| `wrappers.dfy` | `Wrappers` | `Option` and `Result` |
| `js.dfy`, `jsvalue.dfy`, `object_keys.dfy` | `Js`, `JsValue`, `ObjectKeys` | the JavaScript runtime the client relies on: number cases, `trim`, integer printing, object properties and the key order of `Object.entries` |
| `aggregates.dfy`, `tables.dfy` | `Aggregates`, `Tables` | group-by sums and counts (client and server), and tables as sequences of rows with find, filter, OFFSET/LIMIT and a stable sort |
| `client_records.dfy`, `form_inputs.dfy` | `ClientRecords`, `FormInputs` | the expense record the client reads, and the value of a numeric input |
| `api.dfy` | `Api` | `api.js`: the token store, the expiry test, refresh, the Bearer header and the two interceptors (class `Client`) |
| `session_manager.dfy` | `Session` | `sessionManager.js`: the refresh timeout, the minute check, the refresh and its failure path (class `SessionManager`) |
| `auth_context.dfy` | `AuthContext` | `AuthContext.jsx`: startup check, login, logout, profile update (class `AuthProvider`) |
| `currency.dfy` | `Currency` | `currencyUtils.js`: range check, K/L/C readable format, summary format, lenient parser |
| `monthly_expenses.dfy`, `expense_charts.dfy` | `MonthlyExpenses`, `ExpenseCharts` | month grouping and the month-over-month trend; per-category totals with palette cycling |
| `investment_form.dfy`, `expense_form.dfy`, `register_form.dfy` | `InvestmentForm`, `ExpenseForm`, `RegisterForm` | the three forms: check chains, state updates and payloads |
| `error_context.dfy`, `error_popup.dfy` | `ErrorContext`, `ErrorPopup` | the error state cells, the classification by HTTP status, the message and details builders of the pop-up |
| `schemas.dfy` | `Schemas` | request and response shapes, enums and their labels, partial updates |
| `categories_api.dfy`, `expenses_api.dfy`, `investments_api.dfy` | `CategoriesApi`, `ExpensesApi`, `InvestmentsApi` | the owner-scoped endpoints over tables held by classes; list, summary and group-by-type |
| `auth_backend.dfy` | `AuthBackend` | user lookup, the guard chain from bearer token to current user, register with ten default categories, login, refresh, profile update |
| `ai_rules.dfy` | `AiRules` | the forecaster's confidence rule, weekend feature, training and prediction guards, and insight thresholds |

The outside world becomes arguments of the operations:

- **Client.**
  - The clock is a `now` argument in milliseconds.
  - localStorage is a map, the axios default header an optional string, and `window.location` a path plus a count of navigations.
  - The browser's timer table is a map from handles to delays.
  - Every HTTP reply is an argument.
  - Decoding the token payload (`atob` then `JSON.parse`) is a partial `decode` function.
  - `Intl.NumberFormat`, `parseFloat`, `Number` conversion, `toFixed` rounding, `JSON.stringify` and the printing of non-integral numbers are function parameters.
- **Server.**
  - Password hashing and checking are parameters, and so are JWT signing and verification; verification is an outcome value.
  - Today's date is a parameter, the database's text-to-date cast is `parseDate` and string collation is `collate`.
  - The outcomes of model training and prediction are parameters.

Two places where the code does less than its comments or names suggest; the model follows the code:

- `handleRefreshFailure` (`sessionManager.js:77-84`) clears the tokens and redirects to the login page. It does not cancel the refresh timeout that may still be pending, so one can still fire afterwards.
- The comment in the investment summary promises maturities in the "next 30 days", but the code lists every Active maturity from today on. `InvestmentsApi.UpcomingHasNoHorizon` states this.

## Model

| member | source | states |
|---|---|---|
| Session.RequestedDelay | expense-tracker-frontend/src/utils/sessionManager.js:42-48 | the requested delay is NaN (None) exactly when the payload has no `exp`; otherwise it is never below 60000 ms, and it is exactly `exp*1000 - now - 300000` when that is at least 60000, else 60000 |
| Session.TimerDelay | expense-tracker-frontend/src/utils/sessionManager.js:54-56 | the delay the timer really waits: 0 for NaN, the requested value when it fits a signed 32-bit integer, and always below 2^31 |
| Session.ScheduledRefreshPrecedesExpiry | expense-tracker-frontend/src/utils/sessionManager.js:40-56 | for a token that expires between six minutes and about 24 days from now, the refresh fires exactly five minutes before expiry, while the token is still unexpired |
| Session.TokenWithoutExpiryRefreshesAtOnce | expense-tracker-frontend/src/utils/sessionManager.js:42-56 | a token whose payload has no numeric `exp` is never expired, yet its refresh is scheduled with delay 0 |
| Session.SessionManager.constructor | expense-tracker-frontend/src/utils/sessionManager.js:4-21 | one expiry-check interval is started; a refresh timeout is pending exactly when a live token is stored, with handle 1 and the delay `scheduleTokenRefresh` computes from that token's expiry |
| Session.SessionManager.ScheduleTokenRefresh | expense-tracker-frontend/src/utils/sessionManager.js:40-62 | an undecodable token changes nothing, so the old timeout stays pending; otherwise the old timeout is cancelled and exactly one new timeout is pending, with the computed delay, under a fresh handle |
| Session.SessionManager.SetupTokenRefresh | expense-tracker-frontend/src/utils/sessionManager.js:32-38 | schedules exactly when a stored token is present and unexpired, as the only pending timeout with the delay computed from that token's expiry; otherwise nothing changes |
| Session.SessionManager.HandleRefreshFailure | expense-tracker-frontend/src/utils/sessionManager.js:77-84 | both tokens are removed and the location is /login; a navigation happens only when the path was not /login already; the pending timeout is not touched |
| Session.SessionManager.RefreshToken | expense-tracker-frontend/src/utils/sessionManager.js:64-75 | the result is the refresh outcome. On success the new pair is stored, the header carries the new token and the refresh is rescheduled from it. On failure the tokens and header are gone, the browser is at /login and the pending timeout is unchanged |
| Session.SessionManager.CheckTokenExpiration | expense-tracker-frontend/src/utils/sessionManager.js:23-30 | nothing changes unless a stored token is present and expired. In that case one refresh runs: a request when a refresh token is stored, then either the new pair stored, the header set, the location kept and the refresh rescheduled with its delay, or the tokens and header cleared, /login unless already there and the timers left as they were |
| Session.SessionManager.EnsureValidToken | expense-tracker-frontend/src/utils/sessionManager.js:87-99 | no token gives 'No token available' and changes nothing; a live token is returned unchanged and nothing changes; an expired token gives the outcome of one refresh: one refresh request when a refresh token is stored, then either the new pair stored, the header set, the location kept and the timer scheduled, or the tokens cleared, the header removed and a redirect to /login unless already there |
| Session.SessionManager.Cleanup | expense-tracker-frontend/src/utils/sessionManager.js:102-107 | afterwards no timeout is pending and the handle is null, so a second call changes nothing |
| Session.SessionManager.FireTimeout | expense-tracker-frontend/src/utils/sessionManager.js:54-56 | the timeout leaves the pending set and runs `refreshToken`, whose result it returns. On success the new pair is stored, the header set, the location kept and a new timeout with its delay is the only one pending. On failure the tokens and header are gone, the browser is at /login and no timeout is pending, while the stale handle is kept |
| Api.PayloadSegment | expense-tracker-frontend/src/api.js:49 | `token.split('.')[1]`: undefined exactly when the token has no '.'; otherwise the dot-free text between the first '.' and the next '.' or the end |
| Api.IsTokenExpired | expense-tracker-frontend/src/api.js:46-54 | a missing, empty or undecodable token is expired; a payload without `exp` is not; otherwise the token is expired exactly when `exp*1000 < now`, so `exp*1000 == now` is not expired |
| Api.ExpiryIsMonotone | expense-tracker-frontend/src/api.js:46-54 | once a token is expired it stays expired as the clock advances |
| Api.WithTokens | expense-tracker-frontend/src/api.js:18-28 | after `storeTokens(a, r)`, reading the two keys gives `a` and `r`, and every other key is unchanged |
| Api.WithoutTokens | expense-tracker-frontend/src/api.js:31-34 | after `clearTokens()` both keys are absent and every other key is unchanged |
| Api.AuthHeaderFor | expense-tracker-frontend/src/api.js:37-43 | a header is set exactly for a truthy token, and reading it back as Bearer credentials gives that token |
| Api.BearerToken | expense-tracker-frontend/src/api.js:39 | the credentials read from a header are a proper suffix of the header |
| Api.BearerRoundTrip | expense-tracker-frontend/src/api.js:39 | reading `Bearer ${token}` back as Bearer credentials gives the token |
| Api.RefreshOutcome | expense-tracker-frontend/src/api.js:57-77 | no truthy refresh token gives 'No refresh token available'; otherwise the result is the new access token or the reply's error |
| Api.Request.constructor | expense-tracker-frontend/src/api.js:97-100 | a new request carries its header and is not yet marked `_retry` |
| Api.Client.constructor | expense-tracker-frontend/src/api.js:6-15 | a fresh client has the given storage and location, no default header, and no navigations or refresh requests yet |
| Api.Client.GetStoredTokens | expense-tracker-frontend/src/api.js:18-22 | returns the two keys' values, null when absent |
| Api.Client.StoreTokens | expense-tracker-frontend/src/api.js:25-28 | storage becomes `WithTokens` of the old storage |
| Api.Client.ClearTokens | expense-tracker-frontend/src/api.js:31-34 | storage becomes `WithoutTokens` of the old storage |
| Api.Client.SetAuthHeader | expense-tracker-frontend/src/api.js:37-43 | the default header becomes `AuthHeaderFor(token)` |
| Api.Client.RefreshAccessToken | expense-tracker-frontend/src/api.js:57-77 | a request is sent only when a refresh token is stored. On success the pair is stored and the header is Bearer of the new token. On any failure both tokens are gone and there is no header |
| Api.Client.InterceptRequest | expense-tracker-frontend/src/api.js:80-91 | Authorization is set to Bearer of the stored token exactly when that token is live; otherwise the request is unchanged |
| Api.Client.InterceptResponseError | expense-tracker-frontend/src/api.js:94-115 | a 401 on a request not yet retried marks it retried and refreshes once. On success it resends with the new token. On failure it goes to /login and rejects with the refresh error. Every other error is rejected unchanged and nothing changes |
| Api.Client.LoginUser | expense-tracker-frontend/src/api.js:130-142 | the result is that of the call through the 401 interceptor; on success the returned pair is stored and the header is Bearer of the access token on top of the interceptor's effects; a failure leaves exactly the interceptor's effects and passes the error on |
| Api.AfterCall | expense-tracker-frontend/src/api.js:96-114 | the browser after a call: a reply other than 401 changes nothing; a 401 sends one refresh request when a refresh token is stored, then a refreshed pair is stored with its header and the location kept, or the tokens and header are cleared and the browser goes to /login |
| Api.CallOutcome | expense-tracker-frontend/src/api.js:96-114 | the caller sees the reply when it succeeds or fails with another status than 401; after a 401 it sees the refresh error, or the reply to the retried request when the refresh succeeds |
| Api.UnauthorizedWithoutRefreshToken | expense-tracker-frontend/src/api.js:56-76 | a 401 with no stored refresh token fails with "No refresh token available", clears the tokens and header and navigates to /login without a refresh request |
| Api.Client.Send | expense-tracker-frontend/src/api.js:79-115 | a call through both interceptors returns the call outcome and leaves the browser as the 401 handling describes |
| Api.UntilChar | expense-tracker-frontend/src/api.js:49 | the first piece of a `split` on the separator: a prefix of the input that stops at the first separator or at the end |
| Api.Client.LogoutUser | expense-tracker-frontend/src/api.js:144-147 | both tokens are gone and there is no header |
| AuthContext.AuthProvider.constructor | expense-tracker-frontend/src/contexts/AuthContext.jsx:20-23 | no user, loading, not authenticated |
| AuthContext.AuthProvider.CheckAuthStatus | expense-tracker-frontend/src/contexts/AuthContext.jsx:26-53 | loading ends on every path. Without a live token the tokens and header are cleared and no timeout is pending. With one, the profile call goes through the 401 interceptor: its browser effects are kept, a fetched user authenticates with a refresh timeout pending while the token stays live, and a failure clears the tokens and header and cancels the timeouts |
| AuthContext.AuthProvider.UpdateUser | expense-tracker-frontend/src/contexts/AuthContext.jsx:56-58 | replaces the user and nothing else |
| AuthContext.AuthProvider.Login | expense-tracker-frontend/src/contexts/AuthContext.jsx:61-67 | the user is set and authenticated; a refresh is scheduled exactly when a live token is stored, as the only pending timeout with the delay computed from that token's expiry |
| AuthContext.AuthProvider.Logout | expense-tracker-frontend/src/contexts/AuthContext.jsx:70-77 | no user, not authenticated, no tokens, no header, no pending timeout |
| Currency.ValidateINRAmount | expense-tracker-frontend/src/utils/currencyUtils.js:53-72 | an amount ≤ 0 is refused with 'Amount must be greater than ₹0', one above 999999999.99 with the cap message, and the amount is valid, with an empty message, exactly when it is neither (so NaN passes) |
| Currency.ValidFiniteAmounts | expense-tracker-frontend/src/utils/currencyUtils.js:53-72 | a finite amount is valid exactly when 0 < amount ≤ 999999999.99 |
| Currency.FormatINR | expense-tracker-frontend/src/utils/currencyUtils.js:11-22 | null, undefined or NaN gives '₹0.00'; anything else is the Intl formatter's text |
| Currency.FormatINRReadable | expense-tracker-frontend/src/utils/currencyUtils.js:79-111 | null or NaN gives '₹0', and below 1000 the amount is plain. From 1000 on it is K below 10^5, L below 10^7 and C from there, with `count ≥ 1`, `count*unit + remainder == amount` and `0 ≤ remainder < unit` |
| Currency.Bucketed | expense-tracker-frontend/src/utils/currencyUtils.js:86-103 | `Math.floor(amount / unit)`: at least 1, and `count*unit ≤ amount < (count+1)*unit` |
| Currency.FloorBounds | expense-tracker-frontend/src/utils/currencyUtils.js:86-103 | the floor of `v/unit` brackets `v` between two consecutive multiples of the unit |
| Currency.WholeBucketRoundTrip | expense-tracker-frontend/src/utils/currencyUtils.js:86-110 | with a zero remainder only `₹{count}{suffix}` is shown, and the digits shown times the unit give back the amount |
| Currency.WholeBucket | expense-tracker-frontend/src/utils/currencyUtils.js:89-90 | a bucket with zero remainder renders as the suffix form alone, and its printed count times the unit is the amount |
| Currency.FormatSummaryAmount | expense-tracker-frontend/src/utils/currencyUtils.js:118-129 | the readable form exactly when the amount is ≥ 100000 (or +Infinity), `formatINR` otherwise, never the K unit, and '₹0.00' for null or NaN |
| Currency.StripCurrency | expense-tracker-frontend/src/utils/currencyUtils.js:42 | no ₹, comma or whitespace is left, and text without them is unchanged |
| Currency.StripCurrencyConcat | expense-tracker-frontend/src/utils/currencyUtils.js:42 | stripping distributes over concatenation |
| Currency.SeparatorDropped | expense-tracker-frontend/src/utils/currencyUtils.js:42 | a separator between two pieces is dropped and the pieces are joined |
| Currency.ParseINR | expense-tracker-frontend/src/utils/currencyUtils.js:38-46 | never NaN; empty or missing input gives 0; otherwise `parseFloat` of the stripped text, or 0 when that is NaN |
| Currency.ParseIgnoresDecoration | expense-tracker-frontend/src/utils/currencyUtils.js:38-46 | a text and its stripped form parse to the same number |
| ErrorPopup.FormatErrorMessage | expense-tracker-frontend/src/components/ErrorPopup.jsx:65-98 | the message is always truthy; a falsy error gives 'An unknown error occurred' and a string error is returned as it is |
| ErrorPopup.FirstTruthy | expense-tracker-frontend/src/components/ErrorPopup.jsx:73-91 | the position of the first truthy candidate: every earlier one is falsy |
| ErrorPopup.MessagePrecedence | expense-tracker-frontend/src/components/ErrorPopup.jsx:73-97 | for an object the first truthy of message, detail, error, response.data.detail and response.data.message wins; only without any of them, and without a status text, is the message 'An unexpected error occurred' |
| ErrorPopup.DataLinesSkipMessageKeys | expense-tracker-frontend/src/components/ErrorPopup.jsx:113-122 | the data lines leave out exactly the `detail` and `message` entries: there are none only when every entry is one of those, and every line renders some other entry |
| ErrorPopup.JoinedAppend | expense-tracker-frontend/src/components/ErrorPopup.jsx:103-130 | appending line groups one after the other gives the text of all the lines |
| ErrorPopup.DataLinesStep | expense-tracker-frontend/src/components/ErrorPopup.jsx:116-120 | one more pass of the `forEach` appends the entry's line, or nothing for `detail`/`message` |
| ErrorPopup.AppendDataLines | expense-tracker-frontend/src/components/ErrorPopup.jsx:113-122 | the loop appends exactly the data lines of the entries, in entry order |
| ErrorPopup.FormatErrorDetails | expense-tracker-frontend/src/components/ErrorPopup.jsx:100-133 | the result is `DetailsOf`: none without an error or without `showDetails`; otherwise the trimmed lines Status, Status Text, the data lines, URL and the upper-cased Method, in that order |
| ErrorPopup.StringErrorHasEmptyDetails | expense-tracker-frontend/src/components/ErrorPopup.jsx:100-133 | a string error has an empty details text |
| ErrorPopup.SeverityIcon | expense-tracker-frontend/src/components/ErrorPopup.jsx:37-49 | the error icon exactly for a severity other than success, warning and info |
| ErrorPopup.SeverityColor | expense-tracker-frontend/src/components/ErrorPopup.jsx:51-63 | any severity other than success, warning and info gets the error colour '#d32f2f' |
| ErrorPopup.IconAndColorAgree | expense-tracker-frontend/src/components/ErrorPopup.jsx:37-63 | for every severity, known or not, the colour is the one that belongs to the icon |
| ErrorPopup.DetailsToggle.constructor | expense-tracker-frontend/src/components/ErrorPopup.jsx:28 | details start hidden |
| ErrorPopup.DetailsToggle.Toggle | expense-tracker-frontend/src/components/ErrorPopup.jsx:198 | the Show Details button flips `showFullDetails` |
| JsValue.EntriesListEachKeyOnce | expense-tracker-frontend/src/components/ErrorPopup.jsx:116 | `Object.entries` lists each key once, with the value last written under it |
| JsValue.EntriesListOwnKeys | expense-tracker-frontend/src/components/ErrorPopup.jsx:116 | `Object.entries` lists exactly the object's own keys |
| JsValue.Lookup | expense-tracker-frontend/src/components/ErrorPopup.jsx:73-94 | a key that was never written reads as undefined, and any other value read was written under that key |
| JsValue.LookupIsLastWrite | expense-tracker-frontend/src/components/ErrorPopup.jsx:73-94 | when a key is written several times, the value read is the one of the last write |
| Js.UpperAscii | expense-tracker-frontend/src/components/ErrorPopup.jsx:129 | same length; ASCII lower-case letters become upper case and every other character is kept |
| Js.Trim | expense-tracker-frontend/src/components/ErrorPopup.jsx:132 | empty exactly for white-space-only text; otherwise the slice of the input left after dropping the leading and trailing white space, which starts and ends with non-space; text without white space is unchanged |
| Js.BlankIsEmptyTrim | expense-tracker-frontend/src/components/InvestmentForm.jsx:91 | `!s.trim()` holds exactly when the text is white space only |
| Js.NatToStringRoundTrip | expense-tracker-frontend/src/utils/currencyUtils.js:90 | reading back the decimal rendering of a count gives the count |
| Js.NatToStringInjective | expense-tracker-frontend/src/utils/currencyUtils.js:90 | different counts render differently |
| Js.Utf16Length | expense-tracker-frontend/src/components/RegisterForm.jsx:50 | `password.length` counts UTF-16 code units: between the number of characters and twice that, and equal to it for text in the Basic Multilingual Plane |
| ErrorContext.OrDefault | expense-tracker-frontend/src/contexts/ErrorContext.jsx:21-26 | a destructuring default applies exactly when the key is absent or undefined |
| ErrorContext.RetryOf | expense-tracker-frontend/src/contexts/ErrorContext.jsx:24-31 | a retry action is stored exactly when `onRetry` is set |
| ErrorContext.Spread | expense-tracker-frontend/src/contexts/ErrorContext.jsx:102-106 | in `{...a, ...b}` a key present in `b` wins, even when it is undefined |
| ErrorContext.Classify | expense-tracker-frontend/src/contexts/ErrorContext.jsx:61-100 | details are shown exactly for a response whose status is not 401, 403 or 404. The severity is a warning exactly for 401/403/404/422 or for a request without a response; otherwise it is an error |
| ErrorContext.ApiErrorOptions | expense-tracker-frontend/src/contexts/ErrorContext.jsx:102-106 | the caller's options are spread last, so a severity or `showDetails` key they carry overrides the computed one, and `onRetry` is theirs |
| ErrorContext.UnauthorizedIsQuietWarning | expense-tracker-frontend/src/contexts/ErrorContext.jsx:72-74 | a 401 with no caller options is a warning without details |
| ErrorContext.ServerErrorShowsDetails | expense-tracker-frontend/src/contexts/ErrorContext.jsx:85-88 | a status of 500 or more with no caller options is an error with details |
| ErrorContext.ErrorState.constructor | expense-tracker-frontend/src/contexts/ErrorContext.jsx:15-18 | the initial state is the hidden one: null, 'error', no details, no retry |
| ErrorContext.ErrorState.ShowError | expense-tracker-frontend/src/contexts/ErrorContext.jsx:20-32 | stores the value and the options, with the defaults 'error', false and no retry |
| ErrorContext.ErrorState.ShowSuccess | expense-tracker-frontend/src/contexts/ErrorContext.jsx:34-36 | the severity is 'success' whatever the options say |
| ErrorContext.ErrorState.ShowWarning | expense-tracker-frontend/src/contexts/ErrorContext.jsx:38-40 | the severity is 'warning' whatever the options say |
| ErrorContext.ErrorState.ShowInfo | expense-tracker-frontend/src/contexts/ErrorContext.jsx:42-44 | the severity is 'info' whatever the options say |
| ErrorContext.ErrorState.HideError | expense-tracker-frontend/src/contexts/ErrorContext.jsx:46-51 | the state becomes (null, 'error', false, null), so the pop-up is closed |
| ErrorContext.ErrorState.HandleRetry | expense-tracker-frontend/src/contexts/ErrorContext.jsx:53-58 | runs the stored action if there is one, then hides |
| ErrorContext.ErrorState.HandleClose | expense-tracker-frontend/src/components/ErrorPopup.jsx:30-35 | a click away changes nothing; any other close hides the error |
| ErrorContext.ErrorState.HandleApiError | expense-tracker-frontend/src/contexts/ErrorContext.jsx:61-107 | the original error value is stored, never the computed message; severity and details come from the classification under the caller's options |
| MonthlyExpenses.GroupOf | expense-tracker-frontend/src/components/MonthlyExpensesList.jsx:96-110 | a month's group always carries that month's key |
| MonthlyExpenses.GroupOfContents | expense-tracker-frontend/src/components/MonthlyExpensesList.jsx:92-111 | the group of a month holds that month's expenses in input order, the sum of their amounts, their count and their distinct category labels in first-seen order |
| MonthlyExpenses.GroupMembers | expense-tracker-frontend/src/components/MonthlyExpensesList.jsx:107 | the pushed expenses are exactly the month's expenses, in input order |
| MonthlyExpenses.GroupTallies | expense-tracker-frontend/src/components/MonthlyExpensesList.jsx:108-110 | the running total, count and label set equal the sum, the number and the distinct labels of the month's expenses |
| MonthlyExpenses.GroupOfSnoc | expense-tracker-frontend/src/components/MonthlyExpensesList.jsx:92-111 | one more expense changes only its own month's group |
| MonthlyExpenses.EmptyGroup | expense-tracker-frontend/src/components/MonthlyExpensesList.jsx:96-104 | a month with no expense so far has the freshly created empty group |
| MonthlyExpenses.FindGroup | expense-tracker-frontend/src/components/MonthlyExpensesList.jsx:96 | finds the group of a month key, or reports that none exists yet |
| MonthlyExpenses.FileOne | expense-tracker-frontend/src/components/MonthlyExpensesList.jsx:96-110 | filing one expense keeps one group per month seen so far, each equal to that month's group |
| MonthlyExpenses.GroupExpensesByMonth | expense-tracker-frontend/src/components/MonthlyExpensesList.jsx:89-115 | one group per distinct month, every expense's month is present, months newest first, each group's contents and tallies are its month's, and the counts and amounts over all groups add up to the whole list |
| MonthlyExpenses.Outcome | expense-tracker-frontend/src/components/MonthlyExpensesList.jsx:114 | sorting the filed groups yields every promised property of the result |
| MonthlyExpenses.GroupsAddUp | expense-tracker-frontend/src/components/MonthlyExpensesList.jsx:108-109 | the groups' counts add up to the number of expenses and their totals to the sum of all amounts |
| MonthlyExpenses.CountsAddUp | expense-tracker-frontend/src/components/MonthlyExpensesList.jsx:109 | the sum of the groups' counts is the sum of the per-month counts |
| MonthlyExpenses.AmountsAddUp | expense-tracker-frontend/src/components/MonthlyExpensesList.jsx:108 | the sum of the groups' totals is the sum of the per-month sums |
| MonthlyExpenses.InsertKeepsTotals | expense-tracker-frontend/src/components/MonthlyExpensesList.jsx:114 | inserting a group into the sorted list adds exactly its count and total |
| MonthlyExpenses.SortKeepsTotals | expense-tracker-frontend/src/components/MonthlyExpensesList.jsx:114 | sorting changes neither the total count nor the total amount |
| MonthlyExpenses.Insert | expense-tracker-frontend/src/components/MonthlyExpensesList.jsx:114 | the result is the list with one more group, as a multiset |
| MonthlyExpenses.SortNewestFirst | expense-tracker-frontend/src/components/MonthlyExpensesList.jsx:114 | the sorted list is a permutation of its input |
| MonthlyExpenses.InsertKeepsOrder | expense-tracker-frontend/src/components/MonthlyExpensesList.jsx:114 | inserting a group with a new key into a newest-first list keeps it newest first |
| MonthlyExpenses.SortKeepsOrder | expense-tracker-frontend/src/components/MonthlyExpensesList.jsx:114 | groups with distinct keys come out in descending key order |
| MonthlyExpenses.ChangePercent | expense-tracker-frontend/src/components/MonthlyExpensesList.jsx:142-143 | the percentage change, with IEEE division by a zero previous total giving +Infinity, -Infinity or NaN by the sign of the current total |
| MonthlyExpenses.FindIndex | expense-tracker-frontend/src/components/MonthlyExpensesList.jsx:136 | the first index with the key, or -1 exactly when none has it |
| MonthlyExpenses.MonthTrend | expense-tracker-frontend/src/components/MonthlyExpensesList.jsx:135-148 | neutral for the last month or an unknown one; otherwise the trend of the change against the next (older) month |
| MonthlyExpenses.TrendAgainstPositive | expense-tracker-frontend/src/components/MonthlyExpensesList.jsx:142-147 | against a positive previous total, an increase is exactly more than 110 % of it and a decrease exactly less than 90 % |
| MonthlyExpenses.RatioBounds | expense-tracker-frontend/src/components/MonthlyExpensesList.jsx:143-146 | the ±10 % thresholds on the ratio, restated as bounds on the current total |
| MonthlyExpenses.TrendAfterZero | expense-tracker-frontend/src/components/MonthlyExpensesList.jsx:142-147 | after a zero month any spending is an increase and no spending is neutral |
| MonthlyExpenses.TrendText | expense-tracker-frontend/src/components/MonthlyExpensesList.jsx:161-176 | empty for neutral or without a next month; otherwise the signed percentage and the fixed suffix, with '+' only for an increase |
| MonthlyExpenses.CaptionMatchesTrend | expense-tracker-frontend/src/components/MonthlyExpensesList.jsx:135-176 | for the trend the list computes, the caption is empty exactly when the trend is neutral |
| ExpenseCharts.ChartNames | expense-tracker-frontend/src/components/ExpenseCharts.jsx:84-96 | the slice names are distinct, every expense's key is one of them and each of them is some expense's key |
| ExpenseCharts.TallyCategories | expense-tracker-frontend/src/components/ExpenseCharts.jsx:80-94 | after the loop the object's keys are the distinct category keys in first-seen order and each key maps to the sum of its expenses' amounts, despite the truthiness test on a running total of 0 |
| ExpenseCharts.ProcessChartData | expense-tracker-frontend/src/components/ExpenseCharts.jsx:79-105 | one entry per slice name in `Object.entries` order, valued at the rounded category total and coloured by its position modulo ten |
| ExpenseCharts.TalliedTotals | expense-tracker-frontend/src/components/ExpenseCharts.jsx:96 | the entries of the tallied object are the slice names, each with its category total |
| ExpenseCharts.TallyStep | expense-tracker-frontend/src/components/ExpenseCharts.jsx:89-93 | either branch of the loop body keeps the keys and the totals right |
| ExpenseCharts.TallyValuesStep | expense-tracker-frontend/src/components/ExpenseCharts.jsx:89-93 | after the update every running total is still its key's total |
| ExpenseCharts.NoExpensesUnder | expense-tracker-frontend/src/components/ExpenseCharts.jsx:89 | a key not seen yet has a total of 0 |
| ExpenseCharts.ChartStep | expense-tracker-frontend/src/components/ExpenseCharts.jsx:89-93 | an expense adds its amount to its own category's total and to no other |
| ExpenseCharts.ChartTotalsAddUp | expense-tracker-frontend/src/components/ExpenseCharts.jsx:84-100 | before rounding the slices add up to the sum of all amounts |
| ExpenseCharts.NoSlicesIffNoExpenses | expense-tracker-frontend/src/components/ExpenseCharts.jsx:117 | there are no slices exactly when there are no expenses |
| ExpenseCharts.ChartScreen | expense-tracker-frontend/src/components/ExpenseCharts.jsx:109-133 | the spinner while loading; once loaded, the empty panel exactly when there is no chart data, else the charts of that data |
| ExpenseCharts.ChartDimensions | expense-tracker-frontend/src/components/ExpenseCharts.jsx:52-59 | 350 by 250 exactly below a window width of 768, otherwise 500 by 300 |
| Tables.FindFirst | expense-tracker-backend/api/categories.py:48-51 | `filter(...).first()`: the first matching row, or none exactly when no row matches |
| Tables.Where | expense-tracker-backend/api/categories.py:37-39 | `filter(...)`: a row is listed exactly when it is stored and matches |
| Tables.WhereAppend | expense-tracker-backend/api/categories.py:37-39 | filtering two tables one after the other gives the two filtered tables in that order, so the rows keep their storage order |
| Tables.WhereCounts | expense-tracker-backend/api/categories.py:37-39 | a matching row is kept as often as it is stored, and any other row is dropped |
| Tables.Page | expense-tracker-backend/api/categories.py:39 | `offset(skip).limit(limit)`: the rows from position `skip`, at most `limit` of them and all that remain when fewer |
| Tables.RemoveAt | expense-tracker-backend/api/categories.py:89 | `db.delete`: the table without that one row, the others in order |
| Tables.InsertBy | expense-tracker-backend/api/expenses.py:247-261 | inserting into a list sorted by a key keeps it sorted and adds exactly that row |
| Tables.SortBy | expense-tracker-backend/api/expenses.py:247-261 | `order_by`: sorted by the key and a permutation of the input |
| CategoriesApi.UpdatedCategory | expense-tracker-backend/api/categories.py:70-71 | the name is always written; a sent description or colour is written, null included, and an unsent one keeps its old value; id and owner never change |
| CategoriesApi.DeleteRemovesOnlyThatCategory | expense-tracker-backend/api/categories.py:83-89 | with unique ids, the table after the delete holds every other row and none with the deleted id |
| CategoriesApi.CategoryTable.constructor | expense-tracker-backend/data_sources/models.py:26-39 | an empty table with unique ids |
| CategoriesApi.CategoryTable.Create | expense-tracker-backend/api/categories.py:13-28 | appends one row with the next id, the sent fields and the current user as owner |
| CategoriesApi.CategoryTable.List | expense-tracker-backend/api/categories.py:30-40 | the window of at most `limit` rows starting `skip` rows into the user's categories, in storage order |
| CategoriesApi.CategoryTable.Read | expense-tracker-backend/api/categories.py:42-54 | 404 "Category not found" exactly when the user owns no row with that id; otherwise that row |
| CategoriesApi.CategoryTable.Update | expense-tracker-backend/api/categories.py:56-75 | 404 and no change when not found; otherwise only that row changes, as the field update says, and it is returned |
| CategoriesApi.CategoryTable.Delete | expense-tracker-backend/api/categories.py:77-91 | 404 when not found; a 500 and no change when an expense still refers to it; otherwise exactly that row is removed |
| ExpensesApi.CategoryById | expense-tracker-backend/api/expenses.py:176-178 | the category with that id, or none exactly when no category has it |
| ExpensesApi.Resolve | expense-tracker-backend/api/expenses.py:142-158 | a truthy id looks up the user's category by id, else a truthy name looks it up by name, else nothing is looked up. Each lookup fails with its own 404 message exactly when the user owns no such category |
| ExpensesApi.CreateCategory | expense-tracker-backend/api/expenses.py:23-41 | a request with a truthy id or name gets `Resolve`'s outcome, the found category or its 404; a request with neither is refused with the name message; a found category is one of the user's |
| ExpensesApi.CreateNeedsSomeCategory | expense-tracker-backend/api/expenses.py:37-41 | a create request without any category always gets 404 "Category 'None' not found" |
| ExpensesApi.ToResponses | expense-tracker-backend/api/expenses.py:82-98 | the append loop yields one response per row, in order, or a server error when some row has no category |
| ExpensesApi.ListRows | expense-tracker-backend/api/expenses.py:228-264 | the window of at most `limit` rows starting `skip` rows into the ordered matches; each is a stored row that passes every active filter |
| ExpensesApi.ListOrder | expense-tracker-backend/api/expenses.py:228-261 | the matching rows, each as often as stored: sorted by the requested column and direction when there is one, in storage order otherwise |
| ExpensesApi.ListSortedByKey | expense-tracker-backend/api/expenses.py:246-264 | for every sort column the listed page is non-decreasing in the signed sort key |
| ExpensesApi.AmountOrder | expense-tracker-backend/api/expenses.py:252-256 | sorting by amount lists the rows smallest first when the order is "asc" and largest first otherwise |
| ExpensesApi.DefaultOrderIsNewestFirst | expense-tracker-backend/api/expenses.py:247-251 | sorting by date in any order other than "asc" lists the rows newest first |
| ExpensesApi.ListKeepsEveryMatch | expense-tracker-backend/api/expenses.py:228-264 | with no paging cut, the listed rows are exactly the matching rows, as a multiset |
| ExpensesApi.MinDate | expense-tracker-backend/api/expenses.py:336-338 | the earliest date is one of the rows' dates and no row is earlier |
| ExpensesApi.MaxDate | expense-tracker-backend/api/expenses.py:340-342 | the latest date is one of the rows' dates and no row is later |
| ExpensesApi.Summary | expense-tracker-backend/api/expenses.py:331-357 | over the user's rows: their count, the sum of their amounts (0.0 when there are none), and first and latest dates that are absent exactly when there are no rows; otherwise each is the date of one of the user's rows and every row lies between them |
| ExpensesApi.SummaryDatesBracket | expense-tracker-backend/api/expenses.py:336-342 | each of the user's expenses lies between the summary's first and latest dates |
| ExpensesApi.UpdatedExpense | expense-tracker-backend/api/expenses.py:160-170 | description, amount and date are the ones sent; notes only when sent; the category id is the resolved category's, else the one sent, else unchanged; no result exactly when no category resolves and a null id is sent; id and owner never change |
| ExpensesApi.ExpenseTable.constructor | expense-tracker-backend/data_sources/models.py:41-56 | an empty table with unique ids |
| ExpensesApi.ExpenseTable.Create | expense-tracker-backend/api/expenses.py:15-68 | a lookup failure changes nothing and is returned; otherwise one row with the next id, the user as owner and the found category is appended and returned with that category |
| ExpensesApi.ExpenseTable.Read | expense-tracker-backend/api/expenses.py:100-125 | 404 "Expense not found" when the user owns no row with that id; otherwise the first such row with its category, or 500 when that category is missing |
| ExpensesApi.ExpenseTable.ReadAll | expense-tracker-backend/api/expenses.py:70-98 | the responses of the user's rows, paged |
| ExpensesApi.ExpenseTable.List | expense-tracker-backend/api/expenses.py:211-283 | the responses of the filtered, sorted and paged rows |
| ExpensesApi.ExpenseTable.ByCategory | expense-tracker-backend/api/expenses.py:286-328 | 404 when the user has no category of that name; otherwise the responses of that category's rows, paged |
| ExpensesApi.ExpenseTable.Update | expense-tracker-backend/api/expenses.py:127-192 | 404 and no change for a row the user does not own; the category resolution error when it fails; 500 when the update or its category lookup fails; any failure changes nothing; otherwise a success that replaces only that row with the updated expense and returns it with its category |
| ExpensesApi.ExpenseTable.Delete | expense-tracker-backend/api/expenses.py:194-208 | 404 and no change when not found; otherwise exactly that row is removed |
| InvestmentsApi.AsResponse | expense-tracker-backend/schema/schemas.py:131-148 | a stored row passes response validation exactly when its status and `is_sip` are not null; otherwise the request fails with a server error |
| InvestmentsApi.CreatedRowIsValid | expense-tracker-backend/api/investments.py:114-137 | a freshly created row belongs to the current user and always passes response validation |
| InvestmentsApi.UpdatedInvestment | expense-tracker-backend/api/investments.py:182-186 | every sent field is written, null included, and the rest keep their values; the commit fails exactly when a NOT NULL column is set to null; id and owner never change |
| InvestmentsApi.EmptyUpdateChangesNothing | expense-tracker-backend/api/investments.py:182-184 | an update that sends no field leaves the row as it was |
| InvestmentsApi.NullStatusIsStoredButNotReturned | expense-tracker-backend/api/investments.py:182-188 | a null status is stored, but returning the row then fails validation |
| InvestmentsApi.Briefs | expense-tracker-backend/api/investments.py:58-64 | one entry per row of the group, in order, with id, name, amount, date and status |
| InvestmentsApi.GroupByType | expense-tracker-backend/api/investments.py:47-64 | after the loop the dictionary's keys are the distinct types in first-seen order, and each type's value holds the count, the total amount and the rows of that type in order |
| InvestmentsApi.GroupStep | expense-tracker-backend/api/investments.py:48-64 | the loop body keeps the dictionary right, whether the type is new or already a key |
| InvestmentsApi.GroupKeysStep | expense-tracker-backend/api/investments.py:50-55 | the key order grows by the row's type exactly when that type is new |
| InvestmentsApi.GroupValuesStep | expense-tracker-backend/api/investments.py:56-64 | after the update every value is still the group of its type |
| InvestmentsApi.NoRowsOfType | expense-tracker-backend/api/investments.py:50-55 | a type not seen yet has the freshly created empty group |
| InvestmentsApi.GroupOfSnoc | expense-tracker-backend/api/investments.py:56-64 | one more row changes only the group of its own type |
| InvestmentsApi.RecentAreTheLatest | expense-tracker-backend/api/investments.py:67 | at most five rows, newest first, all from the input, and no row left out is newer than one listed |
| InvestmentsApi.UpcomingAreExactlyTheMaturing | expense-tracker-backend/api/investments.py:82-92 | the upcoming maturities are exactly the Active rows with a maturity date on or after today |
| InvestmentsApi.UpcomingInMaturityOrder | expense-tracker-backend/api/investments.py:88-93 | they are sorted by maturity date, earliest first, and none has a negative day count |
| InvestmentsApi.UpcomingList | expense-tracker-backend/api/investments.py:82-93 | one entry per upcoming row, earliest maturity first, each with the non-negative number of days from today to its maturity |
| InvestmentsApi.RecentList | expense-tracker-backend/api/investments.py:68-78 | at most five entries (all rows when there are fewer), newest date first |
| InvestmentsApi.UpcomingHasNoHorizon | expense-tracker-backend/api/investments.py:80-92 | despite the "next 30 days" comment, an Active row maturing a year from today is listed, with 365 days remaining |
| InvestmentsApi.StatusCountsWithinTotal | expense-tracker-backend/api/investments.py:42-44 | the Active, Paused and completed counts together never exceed the number of rows |
| InvestmentsApi.ByTypeAddsUp | expense-tracker-backend/api/investments.py:47-64 | the per-type counts add up to the number of rows and the per-type totals to the total amount |
| InvestmentsApi.InvestmentTable.constructor | expense-tracker-backend/data_sources/models.py:58-85 | an empty table with unique ids |
| InvestmentsApi.InvestmentTable.Create | expense-tracker-backend/api/investments.py:107-137 | appends the new row with the next id and the current user as owner, and returns it |
| InvestmentsApi.InvestmentTable.ReadAll | expense-tracker-backend/api/investments.py:139-150 | the user's rows, paged; the request fails exactly when one of them fails response validation |
| InvestmentsApi.InvestmentTable.Read | expense-tracker-backend/api/investments.py:152-165 | 404 "Investment not found" exactly when the user owns no row with that id; otherwise that row, or 500 when its status or SIP flag is null |
| InvestmentsApi.InvestmentTable.Update | expense-tracker-backend/api/investments.py:167-188 | 404 and no change when not found; a server error and no change when a NOT NULL column is nulled; otherwise only that row is replaced by the patched one, which is then validated |
| InvestmentsApi.InvestmentTable.Delete | expense-tracker-backend/api/investments.py:190-206 | 404 and no change when not found; otherwise exactly that row is removed |
| InvestmentsApi.InvestmentTable.GetSummary | expense-tracker-backend/api/investments.py:14-105 | all zeros and empty collections for a user without investments; otherwise the count, the total, the SIP total, the three status counts, the by-type dictionary, the recent list and the upcoming list, each as defined above |
| Schemas.ParseType | expense-tracker-backend/schema/schemas.py:108-120 | a string that parses as an investment type is exactly that type's label |
| Schemas.TypeLabelsRoundTrip | expense-tracker-backend/schema/schemas.py:108-120 | every one of the twelve types parses back from its label, and the twelve are distinct |
| Schemas.ParseStatus | expense-tracker-backend/schema/schemas.py:123-128 | a string that parses as a status is exactly that status's label |
| Schemas.StatusLabelsRoundTrip | expense-tracker-backend/schema/schemas.py:123-128 | every one of the five statuses parses back from its label |
| Schemas.MinimalInvestment | expense-tracker-backend/schema/schemas.py:131-148 | a request with only the required fields gets status Active, `is_sip` false and every optional field null |
| AuthBackend.GetUserByUsername | expense-tracker-backend/data_sources/auth_data.py:19-21 | the first user with that username, or None exactly when no user has it |
| AuthBackend.AuthenticateUser | expense-tracker-backend/data_sources/auth_data.py:8-17 | None for an unknown username, a wrong password or an account that is not active; the user is returned exactly when all three checks pass |
| AuthBackend.GetCurrentUser | expense-tracker-backend/auth.py:13-39 | a rejected token keeps its error; a payload without `sub` gives "Could not validate credentials"; an unknown username gives "User not found"; a known inactive user gives the inactive-account error; success exactly for an existing active user named by `sub`, returning that user |
| AuthBackend.InactiveUserBranchUnreachable | expense-tracker-backend/auth.py:41-45 | the "Inactive user" 400 is never raised: the active-user dependency always gives the same result as `get_current_user` |
| AuthBackend.DefaultRows | expense-tracker-backend/routers/auth.py:53-73 | one category row per default category |
| AuthBackend.DefaultRowsAreTenOwnedCategories | expense-tracker-backend/routers/auth.py:53-73 | a new user gets ten categories, all theirs, with ten different names and fresh consecutive ids |
| AuthBackend.UpdatedUser | expense-tracker-backend/routers/auth.py:181-183 | only the fields sent change, to the values sent, id and password hash never; the commit fails exactly when email or username is set to null |
| AuthBackend.ProfileConflict | expense-tracker-backend/routers/auth.py:163-179 | "Username already taken" exactly for a truthy new username that differs from the current one and belongs to some user; otherwise "Email already taken" exactly for a truthy new e-mail that differs from the current one and belongs to some user |
| AuthBackend.OwnValuesNeverConflict | expense-tracker-backend/routers/auth.py:164-179 | sending one's own username and email again is never a conflict |
| AuthBackend.UserResponse | expense-tracker-backend/schema/schemas.py:21-27 | a user passes the response model exactly when `is_active` is not null |
| AuthBackend.UserTable.constructor | expense-tracker-backend/data_sources/models.py:9-24 | an empty table with unique ids, usernames and emails |
| AuthBackend.UserTable.Register | expense-tracker-backend/routers/auth.py:20-77 | 400 "Username already registered", then 400 "Email already registered", each changing nothing; a registration whose username and e-mail are both unused succeeds, appending the new active user with the hashed password followed by the ten default categories |
| AuthBackend.UserTable.Login | expense-tracker-backend/routers/auth.py:79-102 | 401 "Incorrect username or password" exactly when authentication fails; otherwise the bearer token pair for the username, announced for 1800 seconds |
| AuthBackend.UserTable.Refresh | expense-tracker-backend/routers/auth.py:104-144 | a new pair exactly for a valid refresh token whose `sub` names an existing active user; every failure is 401 "Invalid refresh token" |
| AuthBackend.UserTable.Me | expense-tracker-backend/routers/auth.py:146-149 | the outcome is exactly that of the guard chain (so the response model never fails); a success is the active user the access token names |
| AuthBackend.UserTable.UpdateProfile | expense-tracker-backend/routers/auth.py:156-188 | authentication errors, the two conflict checks and a commit that nulls a NOT NULL column or repeats another user's username or email all leave the table unchanged; otherwise the current user's row alone is replaced by the updated one, which is returned |
| AuthBackend.AddDefaultCategories | expense-tracker-backend/routers/auth.py:66-75 | the loop appends exactly the ten default rows for the new user, numbered from the next id |
| AiRules.ConfidenceFor | expense-tracker-backend/logic/ai_logic.py:291-302 | the confidence is between 0.5 and 0.9, is 0.9 exactly for the current month and 0.5 from four months apart |
| AiRules.ConfidenceNonIncreasing | expense-tracker-backend/logic/ai_logic.py:293-300 | the further apart the months, the lower or equal the confidence |
| AiRules.ConfidenceStepsFollowFormula | expense-tracker-backend/logic/ai_logic.py:293-300 | the three fixed steps agree with the general formula 0.9 - 0.1 per month |
| AiRules.Weekday | expense-tracker-backend/logic/ai_logic.py:267 | the weekday is between 0 (Monday) and 6 |
| AiRules.IsWeekend | expense-tracker-backend/logic/ai_logic.py:275 | the weekend flag is 1 exactly on weekday 5 or 6 and 0 exactly on the other days |
| AiRules.TwoWeekendDaysPerWeek | expense-tracker-backend/logic/ai_logic.py:49 | any seven consecutive days hold exactly two weekend days |
| AiRules.WeekdayShift | expense-tracker-backend/logic/ai_logic.py:267 | k days later the weekday has moved on by k, modulo the week |
| AiRules.Max0 | expense-tracker-backend/logic/ai_logic.py:214 | the clamped amount is non-negative, at least the input, and either the input or 0 |
| AiRules.PredictionsAreSane | expense-tracker-backend/logic/ai_logic.py:195-222 | at most one prediction per month asked for, each with a non-negative amount and a confidence between 0.5 and 0.9 |
| AiRules.ExpenseForecaster.constructor | expense-tracker-backend/logic/ai_logic.py:28-31 | a new forecaster is untrained |
| AiRules.ExpenseForecaster.TrainModel | expense-tracker-backend/logic/ai_logic.py:70-166 | fewer than ten expenses fail with the fixed message; otherwise the pipeline's outcome decides, and only a completed fit marks the model trained |
| AiRules.ExpenseForecaster.PredictMonthly | expense-tracker-backend/logic/ai_logic.py:168-236 | refused with its message when untrained or without history; otherwise success with one prediction per offset that has month features, and the message counts them |
| AiRules.MaxOf | expense-tracker-backend/logic/ai_logic.py:352-354 | the top category amount is one of the amounts and no amount exceeds it |
| AiRules.TrendInsight | expense-tracker-backend/logic/ai_logic.py:330-349 | titled "Spending Increase" exactly when the last month exceeds the one before; a warning exactly when that rise is above 20 %; "success" exactly when spending did not rise |
| AiRules.InsightRules | expense-tracker-backend/logic/ai_logic.py:325-374 | at most three insights: a trend exactly when two months are known, a concentration warning exactly when the top category exceeds 40 % of the total, a budget warning exactly when the monthly average exceeds 50000 |
| AiRules.ThreeParts | expense-tracker-backend/logic/ai_logic.py:336-374 | the three parts together have at most one insight of each kind, and only the trend may be other than a warning |
| AiRules.HasConcat | expense-tracker-backend/logic/ai_logic.py:323-374 | an insight kind occurs in a concatenation exactly when it occurs in one of the parts |
| AiRules.GetSpendingInsights | expense-tracker-backend/logic/ai_logic.py:308-380 | success exactly when there are recent expenses, with the insights above; otherwise no insights |
| InvestmentForm.InitialData | expense-tracker-frontend/src/components/InvestmentForm.jsx:29-47 | the form opens with empty inputs, today's date, status 'Active', SIP off and no maturity date |
| InvestmentForm.Get | expense-tracker-frontend/src/components/InvestmentForm.jsx:81 | every field holds an input of the kind it takes |
| InvestmentForm.WithChangesOnlyThatField | expense-tracker-frontend/src/components/InvestmentForm.jsx:81 | setting one field leaves every other field as it was |
| InvestmentForm.FormErrors | expense-tracker-frontend/src/components/InvestmentForm.jsx:88-117 | the name has an error exactly when it is blank after trimming; the type exactly when empty; the amount exactly when falsy or not positive; the date exactly when missing; the SIP amount and frequency exactly when SIP is on and they are missing |
| InvestmentForm.ErrorsOnCheckedFields | expense-tracker-frontend/src/components/InvestmentForm.jsx:91-113 | only the six checked fields can carry an error, each with its own message |
| InvestmentForm.FormValidIff | expense-tracker-frontend/src/components/InvestmentForm.jsx:88-117 | the form passes exactly when every required value is present and positive |
| InvestmentForm.SipInputsIgnoredWhenOff | expense-tracker-frontend/src/components/InvestmentForm.jsx:107-113 | with SIP off, the SIP inputs never affect validation |
| InvestmentForm.OptionalNumber | expense-tracker-frontend/src/components/InvestmentForm.jsx:134-137 | null exactly for a falsy input; otherwise the parsed number |
| InvestmentForm.Payload | expense-tracker-frontend/src/components/InvestmentForm.jsx:129-138 | every field is sent as typed except the dates, which are formatted, the amount, which is parsed, and the optional numbers, which are parsed or null |
| InvestmentForm.InvestmentFormState.constructor | expense-tracker-frontend/src/components/InvestmentForm.jsx:29-50 | the initial form data, no errors, not submitting |
| InvestmentForm.InvestmentFormState.HandleChange | expense-tracker-frontend/src/components/InvestmentForm.jsx:80-86 | the field is set; its error, if it has a non-empty one, is cleared to '' |
| InvestmentForm.InvestmentFormState.ValidateForm | expense-tracker-frontend/src/components/InvestmentForm.jsx:88-117 | the error map is replaced by the form's errors, and the form is valid exactly when there are none |
| InvestmentForm.InvestmentFormState.HandleSubmit | expense-tracker-frontend/src/components/InvestmentForm.jsx:119-160 | no call exactly when validation fails; otherwise an update of the current investment or a create, with the payload above |
| ExpenseForm.ExpenseFormState.constructor | expense-tracker-frontend/src/components/ExpenseForm.jsx:22-26 | empty inputs, today's date, not submitting |
| ExpenseForm.ExpenseFormState.LoadExpense | expense-tracker-frontend/src/components/ExpenseForm.jsx:32-44 | an expense being edited fills the inputs, with its nested category name; none resets the form |
| ExpenseForm.ExpenseFormState.HandleSubmit | expense-tracker-frontend/src/components/ExpenseForm.jsx:46-94 | ignored exactly when the description is blank, the amount falsy or no category chosen; a warning with the validator's message exactly when the amount fails validation; a missing date throws once submitting has started, with every input kept; otherwise the trimmed data is sent as an update or a create, and the form is cleared only after a success |
| ExpenseForm.CompleteFormIsSent | expense-tracker-frontend/src/components/ExpenseForm.jsx:49-60 | a complete form with an amount in (0, 99,99,99,999.99] passes both checks |
| RegisterForm.ValidateForm | expense-tracker-frontend/src/components/RegisterForm.jsx:44-56 | no warning exactly when the passwords match and are at least six UTF-16 code units long; the mismatch warning exactly when they differ; the length warning otherwise |
| RegisterForm.ValidationIgnoresOtherFields | expense-tracker-frontend/src/components/RegisterForm.jsx:37-56 | editing the e-mail, username or full name never changes the validation outcome |
| RegisterForm.MatchingLongPasswordAccepted | expense-tracker-frontend/src/components/RegisterForm.jsx:44-56 | any password of at least six characters typed twice is accepted |
| RegisterForm.RegisterFormState.constructor | expense-tracker-frontend/src/components/RegisterForm.jsx:21-28 | empty form data, not loading |
| RegisterForm.RegisterFormState.HandleChange | expense-tracker-frontend/src/components/RegisterForm.jsx:37-42 | the named field is set and no other |
| RegisterForm.RegisterFormState.HandleSubmit | expense-tracker-frontend/src/components/RegisterForm.jsx:58-94 | nothing is sent exactly when validation warns; otherwise the registration is sent, the automatic login with the same username and password follows only a successful registration, and the user is signed in exactly when both succeed |
| Aggregates.Filter | expense-tracker-frontend/src/components/MonthlyExpensesList.jsx:96-107 | the kept elements all have the key, at most as many as the input, and none are kept exactly when no element has the key |
| Aggregates.Keys | expense-tracker-frontend/src/components/ExpenseCharts.jsx:89-93 | the distinct keys in first-seen order: each element's key is among them and each of them is some element's key |
| Aggregates.SumSnoc | expense-tracker-frontend/src/components/MonthlyExpensesList.jsx:108 | adding one more element adds its weight to the sum |
| Aggregates.KeysSnoc | expense-tracker-frontend/src/components/ExpenseCharts.jsx:89-93 | one more element adds its key at the end exactly when the key is new |
| Aggregates.FilterSnoc | expense-tracker-frontend/src/components/MonthlyExpensesList.jsx:107 | one more element joins the filter of its own key and of no other |
| Aggregates.GroupSumsSnoc | expense-tracker-frontend/src/components/MonthlyExpensesList.jsx:108 | over distinct keys, one more element adds its weight to the per-key sums exactly when its key is listed |
| Aggregates.GroupCountsSnoc | expense-tracker-frontend/src/components/MonthlyExpensesList.jsx:109 | over distinct keys, one more element adds one to the per-key counts exactly when its key is listed |
| Aggregates.PartitionSum | expense-tracker-frontend/src/components/ExpenseCharts.jsx:84-100 | when every element's key is listed once, the per-key sums add up to the sum of all elements |
| Aggregates.PartitionCount | expense-tracker-frontend/src/components/MonthlyExpensesList.jsx:109 | when every element's key is listed once, the per-key counts add up to the number of elements |
| ObjectKeys.InsertIndex | expense-tracker-frontend/src/components/ExpenseCharts.jsx:96 | inserting an array-index key keeps the index keys in ascending numeric order, adding exactly that key |
| ObjectKeys.IndexKeys | expense-tracker-frontend/src/components/ExpenseCharts.jsx:96 | the array-index keys, in ascending numeric order |
| ObjectKeys.OtherKeys | expense-tracker-frontend/src/components/ExpenseCharts.jsx:96 | the other keys, none an array index, in insertion order |
| ObjectKeys.EntryOrder | expense-tracker-frontend/src/components/ExpenseCharts.jsx:96 | `Object.entries` lists exactly the object's own keys |
| ObjectKeys.EntryOrderDistinct | expense-tracker-frontend/src/components/ExpenseCharts.jsx:96 | distinct keys are listed once each |
| ObjectKeys.NamesKeepFirstSeenOrder | expense-tracker-frontend/src/components/ExpenseCharts.jsx:96 | without numeric category names, the slices keep first-seen order |

## Left out

- Concurrency is not modelled. The 60-second expiry interval is never cleared, and the interval and the proactive timeout can both start refreshes that overlap in flight. The model has only sequential events: a timeout fires, the interval ticks, a refresh succeeds or fails.
- Only the HTTP outcomes and effects are modelled: stored tokens, the header, the location. Bodies, URLs and axios configuration beyond the `_retry` flag are not modelled. Console logging is left out, including the logging of a token that does not decode.
- Token decoding is the partial `decode` parameter. `atob` accepts plain base64, not base64url, so some well-formed tokens fail to decode; the model treats that failure as the code does.
- Only the results of formatting and number conversion are stated, in exact reals: `Intl.NumberFormat`, `parseFloat`, `Number`, `toFixed`, `Math.round`, `JSON.stringify` and the printing of non-integral numbers. Their floating-point behaviour is not modelled.
- `dayjs` formatting is reduced to a calendar date and its year-month key. Month display names are not modelled.
- The client's pure UI is not part of this model: navigation, pages, MUI layout, the summary cards, the chart-type toggle (`chartType`), the category select and the login form.
- Password hashing and checking are parameters, and so are JWT signing and verification. `logic/auth_logic.py` is not part of this model.
- The machine-learning pipeline is reduced to its outcomes: feature frames, scaling, the random forest, train/test split, metrics and model files on disk. Its predictions are taken as given, without rounding. The insight message texts, which print formatted floats, are not modelled; each insight keeps its kind, title and severity.
- Some server files are not part of this model:
  - `api/ai.py` and `data_sources/ai_data.py`;
  - `data_sources/database.py` and `main.py`;
  - the maintenance scripts and the database migration.
- `data_sources/models.py` is used only for field types, nullability and the unique username and email columns.
- SQLAlchemy sessions and commits are not modelled. A table is a sequence of rows in storage order, and a commit that would break a UNIQUE constraint is a failure outcome.
- Database ordering is modelled as a stable sort by key, with string keys compared through the `collate` parameter. The database does not promise any order among equal keys, but the model keeps storage order for them.
- Pydantic's `EmailStr` validation and normalisation are not modelled; an email is a string.
- `skip` and `limit` are natural numbers, so negative values are not modelled.
- The `created_at` and `updated_at` timestamps are not modelled.
- The `/auth/logout` endpoint, which returns a constant message, is not modelled.
- The `setattr` loops of the update endpoints are modelled field by field, in effect: each field the request sets replaces the stored one, and no other field changes.
- ExpenseForm.ExpenseFormState.LoadExpense: requires an expense being edited to carry its nested category. Without one, the source fails with a TypeError, which the model does not represent.
- ErrorContext.ErrorState.HandleApiError: requires an error that is neither null nor undefined. The source fails with a TypeError on those values, which the model does not represent.
- Js.UpperAscii: upper-cases ASCII letters only, while `toUpperCase` maps all of Unicode. It is applied to the request method of an axios error, which is an ASCII HTTP verb in practice.
- ExpenseCharts.TallyCategories: treats every category name as an ordinary key of an empty map. In the source the object inherits `Object.prototype`. A name such as `toString`, `valueOf` or `constructor` finds a truthy inherited function, so `+=` concatenates the amount onto the function's text. A name `__proto__` finds the prototype object, and the assignment of the resulting string is ignored. The tally for such names is not modelled.
- ExpenseCharts.ProcessChartData: for those names the source does not produce the slice the model produces. For an inherited function name, `toFixed` is called on a string and throws a TypeError. For `__proto__` no own property exists, so the slice is missing. The model covers category names that are not `Object.prototype` properties.
- Js.NatToString: writes every digit of a count, and so does `IntToString` for the integral numbers of an error payload. JavaScript prints numbers of 10^21 or more in exponent form (`1e+21`). The model therefore differs for crore counts of amounts of 10^28 rupees or more and for integral payload values of that size. List lengths never reach it.
