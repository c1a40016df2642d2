# Finanzas personales — a Dafny model of the frontend core

This project models the client-side core of a personal-finance single-page
application (incomes, expenses, categories and a dashboard, with a
Spanish-language interface). The model covers these parts:

- **HTTP client** (`src/utils/api.ts`):
  - the access and refresh tokens kept in browser storage;
  - the request interceptor that attaches the bearer token;
  - the response interceptor that refreshes an expired token once, parks
    concurrent 401 responses in a queue and replays them, and signs the user
    out when the refresh fails;
  - the normalisation of errors into `{ message, status, errors }`.
- **Legacy client** (`src/services/api.js`):
  - its own token utilities under different storage keys;
  - its interceptors;
  - the query parameters its endpoints build.
- **Authentication service** (`src/services/auth.service.ts`) and the
  **authentication store** (`src/store/authStore.ts`), including the slice
  of the store that is persisted and rehydrated.
- **Stores** for categories, incomes and expenses, and the dashboard
  (`src/store/*.ts`):
  - each store is a class whose fields are the store's state;
  - each action is a method;
  - server replies are parameters.
- **Form schemas** (`src/schemas/*.ts`): the model follows the
  schema library's rules. Checks run in order on the raw input, issues
  accumulate, and `.trim()` and `.toLowerCase()` transform the value only
  after every check has passed.
- **Formatting and helper functions** (`src/utils/formatters.ts`,
  `src/utils/helpers.ts`) and the **money utilities**
  (`src/utils/money.ts`). Money amounts are whole cents tagged with one of
  MXN, USD and EUR. `src/utils/helpers.ts` repeats `translatePaymentMethod`
  (lines 110-119), `isValidEmail` (lines 138-141) and `truncateText`
  (lines 146-149) with the same behaviour as in `formatters.ts`. Each is
  modelled once, by `Formatters.TranslatePaymentMethod`,
  `Formatters.IsValidEmail` and `Formatters.TruncateText`.

Numbers are exact reals, and NaN is a separate case (`Numbers.JsNumber`).
`parseFloat` is modelled as a prefix parser: optional leading whitespace,
an optional sign, digits and an optional fraction. Strings are sequences of
characters. Browser storage is a class holding a `map<string, string>`.
The following are parameters of the operations that use them, never
modelled:

- JSON encoding of the user (`UserCodec`);
- the host's `toFixed` rendering;
- the host's date parser and e-mail format check;
- the clock;
- every server reply.

One file per source module:

| file | source |
|---|---|
| `api_client.dfy` | `src/utils/api.ts` |
| `legacy_api.dfy` | `src/services/api.js` |
| `auth_service.dfy` | `src/services/auth.service.ts` |
| `auth_store.dfy` | `src/store/authStore.ts` |
| `categories_store.dfy` | `src/store/categoriesStore.ts` |
| `transactions_store.dfy` | `src/store/transactionsStore.ts` |
| `dashboard_store.dfy` | `src/store/dashboardStore.ts` |
| `auth_schemas.dfy` | `src/schemas/authSchemas.ts` |
| `transaction_schemas.dfy` | `src/schemas/transactionSchemas.ts` |
| `category_schemas.dfy` | `src/schemas/categorySchemas.ts` |
| `formatters.dfy` | `src/utils/formatters.ts` |
| `helpers.dfy` | `src/utils/helpers.ts` |
| `money.dfy` | `src/utils/money.ts` |

The remaining files are shared support:

- `wrappers.dfy`: `Option` and `Result`.
- `text.dfy`: the string built-ins (`trim`, `split`, `indexOf`, decimal
  rendering, ASCII case mapping).
- `numbers.dfy`: `parseFloat`, `Math.abs`.
- `domain.dfy`: the API types.
- `browser.dfy`: `localStorage`.
- `validation.dfy`: schema issues and the length checks.
- `by_id.dfy`: the `filter`/`map`-by-id idioms the stores use.

On a 401 received when no refresh token is stored, `isRefreshing` is never
lowered: `src/utils/api.ts:150-158` returns before the `try`/`finally` that
would reset it. `ApiClient.MissingRefreshTokenStalls` shows the consequence:
a later 401 is parked in a queue that nothing drains.

## Model

| member | source | states |
|---|---|---|
| ApiClient.SetTokens | src/utils/api.ts:47-53 | storage afterwards is the old storage with the access token written and the refresh token written only when given and non-empty |
| ApiClient.GetTokens | src/utils/api.ts:37-42 | each token is present exactly when its key is stored, and then it is the stored value |
| ApiClient.ClearTokens | src/utils/api.ts:58-62 | storage afterwards is the old storage without the two token keys and the cached user |
| ApiClient.SetTokensReadBack | src/utils/api.ts:37-53 | after setTokens, getTokens reads back the new access token; it reads the new refresh token when a non-empty one was given and the old one otherwise; every other key is unchanged |
| ApiClient.ClearTokensProperties | src/utils/api.ts:58-62 | clearTokens removes exactly the access token, the refresh token and the user; getTokens then reads nothing; a second clear changes nothing |
| ApiClient.AuthorizeRequest | src/utils/api.ts:91-104 | with a stored non-empty access token the request gains `Authorization: Bearer <token>`; otherwise it is unchanged; URL, retry flag and other headers are always kept |
| ApiClient.Settle | src/utils/api.ts:76-86 | every parked request gets one outcome, in queue order: rejected with the error if one is given, else resolved with a non-empty token, else left unsettled |
| ApiClient.RetriedAtMostOnce | src/utils/api.ts:120-132 | a request already marked `_retry` never takes the refresh path again, whatever status it fails with |
| ApiClient.RefreshUrlIsUnderAuth | src/utils/api.ts:122-129 | a URL containing `/auth/refresh` is not one of the auth endpoints, so a 401 on it takes the refresh path |
| ApiClient.IsAuthEndpoint | src/utils/api.ts:122-123 | only URLs containing `/auth/` qualify, and none containing `/auth/refresh` |
| ApiClient.AuthEndpointCases | src/utils/api.ts:122-123 | login and logout URLs are auth endpoints; the refresh URL is not |
| ApiClient.ProfileIsAuthEndpoint | src/utils/api.ts:122-123 | the profile URL is an auth endpoint |
| ApiClient.DataEndpointIsNotAuth | src/utils/api.ts:122-123 | a data URL such as `/incomes` is not an auth endpoint |
| ApiClient.RetryCarriesNewToken | src/utils/api.ts:171-181 | a request replayed after a refresh carries the new token both before and after the request interceptor runs again |
| ApiClient.RefreshCoordinator.constructor | src/utils/api.ts:67-71 | a new client is idle with an empty queue and has not redirected |
| ApiClient.RefreshCoordinator.ProcessQueue | src/utils/api.ts:76-86 | the settlements handed out are `Settle` of the old queue, and the queue is emptied |
| ApiClient.RefreshCoordinator.OnResponseError | src/utils/api.ts:109-158 | four cases: non-401s, retried requests and network errors pass through; a 401 on any `/auth/` URL other than `/auth/refresh` (login, register, profile, logout) clears storage and goes to sign-in; while a refresh is in flight the request is parked; otherwise the request is marked retried and the refresh starts, or storage is cleared when no refresh token is stored |
| ApiClient.RefreshCoordinator.OnRefreshSettled | src/utils/api.ts:160-191 | success stores the new access token, releases the queue with it and replays the original request; failure releases the queue with the error, clears storage and redirects; both lower `isRefreshing` |
| ApiClient.ConcurrentExpiry | src/utils/api.ts:109-191 | two concurrent 401s cause exactly one refresh, and both requests are replayed with the new token |
| ApiClient.FailedRefresh | src/utils/api.ts:182-190 | a failed refresh rejects every parked request with the same error, clears the session and redirects to sign-in |
| ApiClient.MissingRefreshTokenStalls | src/utils/api.ts:150-158 | with no refresh token stored, `isRefreshing` stays raised and a later 401 is parked with nothing to drain the queue |
| ApiClient.HandleApiError | src/utils/api.ts:200-227 | a server reply gives its message (or a default), status and field errors; no reply gives the connection message with status 0; anything else gives the unknown-error message with status 500 |
| LegacyApi.SetToken | src/services/api.js:93 | storage afterwards has `auth_token` set to the token, nothing else changed |
| LegacyApi.GetToken | src/services/api.js:94 | the stored `auth_token`, or null exactly when it is absent |
| LegacyApi.RemoveToken | src/services/api.js:95 | storage afterwards lacks `auth_token`, nothing else changed |
| LegacyApi.SetUser | src/services/api.js:96 | storage afterwards has `user_data` set to the encoded user |
| LegacyApi.GetUser | src/services/api.js:97-100 | null exactly when no non-empty `user_data` is stored; the decoded user when it decodes; a parse failure otherwise |
| LegacyApi.RemoveUser | src/services/api.js:101 | storage afterwards lacks `user_data`, nothing else changed |
| LegacyApi.IsAuthenticated | src/services/api.js:102 | true exactly when a non-empty `auth_token` is stored |
| LegacyApi.TokenLifecycle | src/services/api.js:92-103 | set then get returns the token, and the session counts as authenticated iff the token is non-empty; the user reads back; removing the token ends authentication but keeps the user |
| LegacyApi.NoStoredUserIsNull | src/services/api.js:97-100 | with no `user_data`, getUser is null, whatever token is stored |
| LegacyApi.AuthorizeLegacyRequest | src/services/api.js:15-24 | with a non-empty `auth_token` the request gains the bearer header; otherwise it is unchanged; all other headers are kept |
| LegacyApi.ClientsUseSeparateTokens | src/services/api.js:15-24 | neither client's request interceptor sees the token stored by the other |
| LegacyApi.OnLegacyResponseError | src/services/api.js:27-37 | the error is always rethrown; a 401 removes exactly the token and the user and navigates to `/login`; any other failure changes nothing |
| LegacyApi.UnauthorizedSignsOut | src/services/api.js:27-37 | after a 401 the user is signed out with no cached user, and a second 401 changes nothing more |
| LegacyApi.KeepPresent | src/services/api.js:122-131 | the query has at most one pair per parameter, and one for every parameter exactly when none is null, undefined or the empty string |
| LegacyApi.KeepPresentAppend | src/services/api.js:122-131 | the query of concatenated parameter lists is the concatenation of their queries |
| LegacyApi.KeepPresentSound | src/services/api.js:122-131 | every pair sent is a present parameter with its rendered value |
| LegacyApi.BuildQuery | src/services/api.js:122-131 | the loop that appends parameters produces `KeepPresent` of them |
| LegacyApi.StatsParams | src/services/api.js:61-68 | `startDate` and `endDate` are sent each exactly when truthy, in that order |
| LegacyApi.CategoryParams | src/services/api.js:107-112 | `type` is sent exactly when truthy |
| LegacyApi.StatsAgreesWithGetAll | src/services/api.js:73-80 | the statistics query of two dates is the list query of the same dates |
| LegacyApi.RegisterPayload | src/services/api.js:46-51 | name, email and password are sent as given; currency defaults to USD only when the argument is omitted |
| LegacyApi.RegisterDefaultOnlyWhenOmitted | src/services/api.js:46-51 | the currency sent is USD exactly when it was omitted or passed as USD |
| AuthService.Outcome | src/services/auth.service.ts:22-38 | a reply yields its data; a failed call yields the error `handleApiError` makes of it |
| AuthService.AcceptSession | src/services/auth.service.ts:22-38 | a reply with data stores both tokens and the encoded user; any other reply leaves storage alone; the result is the reply's outcome |
| AuthService.Register | src/services/auth.service.ts:22-38 | register stores the opened session as `AcceptSession` does |
| AuthService.Login | src/services/auth.service.ts:43-59 | login stores the opened session as `AcceptSession` does |
| AuthService.SessionEffectStoresSession | src/services/auth.service.ts:43-59 | after a session reply the access token, the refresh token and the user read back, and every other key is unchanged |
| AuthService.RefreshToken | src/services/auth.service.ts:64-79 | success stores only the new access token; a reply without data, or a failed call, becomes the normalised error and stores nothing |
| AuthService.RefreshKeepsRefreshToken | src/services/auth.service.ts:64-79 | after a refresh the stored refresh token is still the old one |
| AuthService.Logout | src/services/auth.service.ts:84-98 | the server is told only when a refresh token is stored; the session is always cleared, whatever that call does |
| AuthService.UpdateProfile | src/services/auth.service.ts:115-128 | a reply with data replaces the cached user; tokens are never touched |
| AuthService.UpdateLocalUser | src/services/auth.service.ts:192-194 | storage afterwards has the encoded user under `user`, nothing else changed |
| AuthService.GetCurrentUser | src/services/auth.service.ts:177-187 | nothing when no non-empty user is stored, else the decoded user or nothing when decoding fails |
| AuthService.IsAuthenticated | src/services/auth.service.ts:167-172 | true exactly when both a non-empty access token and a non-empty user are stored |
| AuthService.CachedUserRoundTrip | src/services/auth.service.ts:177-194 | a user written by `updateLocalUser` reads back unchanged through `getCurrentUser` |
| AuthService.SessionLifecycle | src/services/auth.service.ts:43-98 | a session opened with a non-empty access token is authenticated and its user reads back; after logout it is neither |
| AuthStore.SessionOutcome | src/store/authStore.ts:37-58 | the user of a reply with data; the service's error; or the failure of reading a missing response |
| AuthStore.AuthStore.constructor | src/store/authStore.ts:30-34 | a new store has no user, is not authenticated, is not loading and has no error |
| AuthStore.AuthStore.OpenSession | src/store/authStore.ts:37-82 | success sets the user and authenticates; failure clears user and flag and records the error message; loading is lowered either way |
| AuthStore.AuthStore.Login | src/store/authStore.ts:37-58 | the login action as `OpenSession` |
| AuthStore.AuthStore.Register | src/store/authStore.ts:61-82 | the register action as `OpenSession` |
| AuthStore.AuthStore.Logout | src/store/authStore.ts:85-100 | the store always ends signed out, not loading and without error; storage has no session |
| AuthStore.AuthStore.UpdateUser | src/store/authStore.ts:103-106 | only the user and its cached copy change |
| AuthStore.AuthStore.ClearError | src/store/authStore.ts:109-111 | only the error is cleared |
| AuthStore.AuthStore.CheckAuth | src/store/authStore.ts:114-122 | the flag comes from storage; the cached user is kept only when authenticated |
| AuthStore.AuthStore.Persisted | src/store/authStore.ts:124-130 | the persisted slice is exactly the user and the authenticated flag |
| AuthStore.AuthStore.Rehydrate | src/store/authStore.ts:124-130 | the persisted user and flag replace the current ones; loading and error are untouched |
| AuthStore.LoginSurvivesReload | src/store/authStore.ts:37-58 | after a successful login a store rehydrated from the persisted slice has the same user and flag |
| AuthStore.CheckAuthAfterLoginAndLogout | src/store/authStore.ts:85-122 | `checkAuth` after login finds the logged-in user; after logout it finds nobody |
| AuthStore.FailedLoginSignsOut | src/store/authStore.ts:37-58 | a failed login leaves the store signed out with the error recorded, whatever it held before |
| Lists.Filter | src/store/categoriesStore.ts:51-52 | the kept entries all pass the predicate, and there are no more of them than in the list |
| Lists.FilterMembers | src/store/categoriesStore.ts:51-52 | an entry is kept exactly when it is in the list and passes |
| Lists.FilterAppend | src/store/categoriesStore.ts:99-104 | filtering a concatenation filters each part, keeping order |
| Lists.FilterUniform | src/store/categoriesStore.ts:51-52 | a list that all passes is unchanged; a list that all fails becomes empty |
| Lists.FilterIdempotent | src/store/categoriesStore.ts:157-162 | filtering twice is filtering once |
| Lists.ReplaceById | src/store/transactionsStore.ts:118-120 | the result has the same length |
| Lists.ReplaceByIdPointwise | src/store/transactionsStore.ts:118-120 | each entry with the id becomes the replacement, and every other entry stays in place |
| Lists.ReplaceAbsentId | src/store/transactionsStore.ts:118-120 | replacing an id no entry has changes nothing |
| Lists.RemoveById | src/store/categoriesStore.ts:157 | the result is no longer than the list and holds no entry with the id |
| Lists.RemoveByIdExact | src/store/transactionsStore.ts:145 | no entry with the id survives, every other entry does, and removing twice is removing once |
| Lists.RemoveAfterReplace | src/store/transactionsStore.ts:118-145 | removing an id after an update that keeps it is the same as removing it straight away |
| Lists.RemoveAppended | src/store/categoriesStore.ts:99-157 | removing a just-appended entry whose id is new gives back the earlier list |
| CategoriesStore.SplitAfterAppend | src/store/categoriesStore.ts:99-104 | appending a category extends the derived list of its own type only |
| CategoriesStore.SplitOfConcatenation | src/store/categoriesStore.ts:66-89 | the active incomes followed by the active expenses split back into the two lists |
| CategoriesStore.CategoriesStore.constructor | src/store/categoriesStore.ts:36-40 | a new store has empty lists, is not loading and has no error |
| CategoriesStore.CategoriesStore.Publish | src/store/categoriesStore.ts:49-55 | the full list is replaced, and the income and expense lists are its filtered parts |
| CategoriesStore.CategoriesStore.Fail | src/store/categoriesStore.ts:56-61 | the lists are kept, the error message is stored, loading is lowered |
| CategoriesStore.CategoriesStore.LoadCategories | src/store/categoriesStore.ts:43-63 | the fetched list replaces the old one and is split by type; on failure the lists stay and the error is rethrown |
| CategoriesStore.CategoriesStore.LoadActiveCategories | src/store/categoriesStore.ts:66-89 | the two fetched lists become the two derived lists, and their concatenation becomes the full list; a failure of either keeps the lists |
| CategoriesStore.CategoriesStore.CreateCategory | src/store/categoriesStore.ts:92-117 | the created category is appended and returned; the split is kept |
| CategoriesStore.CategoriesStore.UpdateCategory | src/store/categoriesStore.ts:120-147 | the server's copy replaces every entry with the id |
| CategoriesStore.CategoriesStore.DeleteCategory | src/store/categoriesStore.ts:150-173 | every entry with the id is removed once the server confirms |
| CategoriesStore.CategoriesStore.ClearError | src/store/categoriesStore.ts:176-178 | only the error is cleared |
| CategoriesStore.CategoriesStore.Reset | src/store/categoriesStore.ts:181-189 | the store is as newly created |
| CategoriesStore.CreateThenDelete | src/store/categoriesStore.ts:92-173 | creating a category with a new id appends it to the full list and only to the derived list of its own type; deleting it then restores all three lists |
| TransactionsStore.TransactionsStore.constructor | src/store/transactionsStore.ts:55-62 | a new store is pristine: empty lists, no pagination, expenses tab, not loading, no error |
| TransactionsStore.TransactionsStore.LoadIncomes | src/store/transactionsStore.ts:66-85 | the fetched page and its pagination replace the old ones; a failure keeps them and records the error |
| TransactionsStore.TransactionsStore.CreateIncome | src/store/transactionsStore.ts:87-109 | after a create the list is fetched again with no filters, and the created income is returned; a failure of either call is rethrown |
| TransactionsStore.TransactionsStore.UpdateIncome | src/store/transactionsStore.ts:111-136 | the server's copy replaces every income with the id; expenses are untouched |
| TransactionsStore.TransactionsStore.DeleteIncome | src/store/transactionsStore.ts:138-159 | every income with the id is removed once the server confirms |
| TransactionsStore.TransactionsStore.LoadExpenses | src/store/transactionsStore.ts:163-182 | the fetched page and its pagination replace the old ones; a failure keeps them and records the error |
| TransactionsStore.TransactionsStore.CreateExpense | src/store/transactionsStore.ts:184-206 | after a create the list is fetched again with no filters, and the created expense is returned |
| TransactionsStore.TransactionsStore.UpdateExpense | src/store/transactionsStore.ts:208-233 | the server's copy replaces every expense with the id; incomes are untouched |
| TransactionsStore.TransactionsStore.DeleteExpense | src/store/transactionsStore.ts:235-256 | every expense with the id is removed once the server confirms |
| TransactionsStore.TransactionsStore.SetActiveTab | src/store/transactionsStore.ts:260-262 | only the tab changes |
| TransactionsStore.TransactionsStore.ClearError | src/store/transactionsStore.ts:264-266 | only the error is cleared |
| TransactionsStore.TransactionsStore.Reset | src/store/transactionsStore.ts:268-278 | the store is pristine again |
| TransactionsStore.EditThenDeleteIncome | src/store/transactionsStore.ts:111-159 | editing an income and then deleting it leaves the incomes without that id and the expenses as loaded |
| TransactionsStore.ResetRestoresInitial | src/store/transactionsStore.ts:268-278 | whatever happened before, a reset makes the store equal to a new one |
| DashboardStore.OrDefault | src/store/dashboardStore.ts:122-161 | the given argument, or the default when it is left out |
| DashboardStore.DashboardStore.constructor | src/store/dashboardStore.ts:44-50 | a new store has no aggregates, the current month as filter, no loading and no error |
| DashboardStore.DashboardStore.LoadDashboard | src/store/dashboardStore.ts:53-75 | the range asked for (given, or else stored) is stored before the fetch; success replaces all four aggregates; failure keeps them |
| DashboardStore.DashboardStore.LoadSummary | src/store/dashboardStore.ts:78-97 | asks with the given or else stored range, never stores one; success replaces only the summary |
| DashboardStore.DashboardStore.LoadBreakdown | src/store/dashboardStore.ts:100-119 | asks with the given or else stored range, never stores one; success replaces only the breakdown |
| DashboardStore.DashboardStore.LoadTrends | src/store/dashboardStore.ts:122-140 | asks for the given number of months, 6 by default; success replaces only the trends |
| DashboardStore.DashboardStore.LoadRecentTransactions | src/store/dashboardStore.ts:143-161 | asks for the given number of transactions, 10 by default; success replaces only that list |
| DashboardStore.DashboardStore.SetDateFilter | src/store/dashboardStore.ts:164-166 | only the filter changes |
| DashboardStore.DashboardStore.ResetToCurrentMonth | src/store/dashboardStore.ts:169-172 | only the filter changes, to the current month |
| DashboardStore.DashboardStore.ClearError | src/store/dashboardStore.ts:175-177 | only the error is cleared |
| DashboardStore.DashboardStore.Reset | src/store/dashboardStore.ts:180-190 | the store is as newly created in the current month |
| DashboardStore.StoredRangeIsReused | src/store/dashboardStore.ts:53-161 | a range chosen by `loadDashboard` is what later partial loads ask for, and the defaults apply to trends and recent transactions |
| DashboardStore.FailedReloadKeepsData | src/store/dashboardStore.ts:53-75 | a failed reload keeps the last data and still stores the range it asked for |
| Validation.LengthIssues | src/schemas/transactionSchemas.ts:11-15 | no issue exactly when the raw length is within bounds; below the minimum only the minimum message, above the maximum only the maximum message |
| Validation.MaxIssues | src/schemas/transactionSchemas.ts:39-44 | no issue exactly when the raw length is at most the bound |
| Validation.Check | src/schemas/transactionSchemas.ts:17-29 | a refinement raises its issue exactly when it fails |
| AuthSchemas.ValidatePasswordStrength | src/schemas/authSchemas.ts:67-88 | reports each of the five requirements; counts them out of 5; strong iff all five hold, medium iff 3 or 4 hold, weak iff at most 2 hold |
| AuthSchemas.EmailIssues | src/schemas/authSchemas.ts:18-23 | no issue exactly when the e-mail has the address format and at most 255 characters |
| AuthSchemas.PasswordIssues | src/schemas/authSchemas.ts:25-35 | no issue exactly when 8 to 100 characters with a lowercase letter, an uppercase letter, a digit and a special character |
| AuthSchemas.ParseRegister | src/schemas/authSchemas.ts:10-44 | accepted exactly when every field passes and the confirmation matches; the result has a trimmed name and a trimmed, lower-cased e-mail; a mismatch is reported on `confirmPassword` |
| AuthSchemas.AcceptedPasswordIsStrong | src/schemas/authSchemas.ts:25-88 | a password the register form accepts is rated strong |
| AuthSchemas.StrongButTooLong | src/schemas/authSchemas.ts:25-88 | a password over 100 characters with every character class is rated strong yet refused by the form |
| AuthSchemas.ParseLogin | src/schemas/authSchemas.ts:51-59 | accepted exactly when the e-mail has the format and a password is given; the e-mail comes out trimmed and lower-cased |
| TransactionSchemas.AmountIssues | src/schemas/transactionSchemas.ts:17-29 | no issue exactly when the parsed amount exists and lies in (0, 999999999.99] |
| TransactionSchemas.AmountValue | src/schemas/transactionSchemas.ts:17-22 | text always gives a value: its parsed number, or 0 when `parseFloat` finds none; a finite number is taken as it is, and a NaN number gives no value because the number schema refuses it before the transform |
| TransactionSchemas.UnparsableAmountRejected | src/schemas/transactionSchemas.ts:17-29 | text `parseFloat` cannot read becomes 0 and is refused as not positive |
| TransactionSchemas.AmountWithoutDigitRejected | src/schemas/transactionSchemas.ts:17-29 | an amount written without a digit is always refused |
| TransactionSchemas.WholeAmountAccepted | src/schemas/transactionSchemas.ts:17-29 | a whole decimal amount is accepted exactly when between 1 and 999999999 |
| TransactionSchemas.DateIssues | src/schemas/transactionSchemas.ts:31-37 | no issue exactly when the text has the `YYYY-MM-DD` shape and the host reads it as a date |
| TransactionSchemas.OptionalNoteIssues | src/schemas/transactionSchemas.ts:39-44 | no issue exactly when the note is absent, null, or at most 1000 characters |
| TransactionSchemas.TrimNote | src/schemas/transactionSchemas.ts:39-44 | a given note stays given, and an absent or null one stays absent or null |
| TransactionSchemas.CategoryIdIssues | src/schemas/transactionSchemas.ts:46-49 | no issue exactly when a positive whole number |
| TransactionSchemas.PlaceholderCategoryRejected | src/schemas/transactionSchemas.ts:46-49 | the placeholder 0 is refused with the category message |
| TransactionSchemas.ParseIncome | src/schemas/transactionSchemas.ts:10-50 | accepted exactly when every field passes; the result has a positive bounded amount, a positive category, a well-shaped date, and a trimmed concept and description |
| TransactionSchemas.ParseExpense | src/schemas/transactionSchemas.ts:57-101 | accepted exactly when every field passes and the payment method is one of the five; the result's text fields are trimmed |
| CategorySchemas.NameIssues | src/schemas/categorySchemas.ts:7-11 | no issue exactly when 2 to 100 characters |
| CategorySchemas.ColorIssues | src/schemas/categorySchemas.ts:18-21 | no issue exactly when `#` followed by six hex digits |
| CategorySchemas.TypeIssues | src/schemas/categorySchemas.ts:13-16 | no issue exactly when the type is `income` or `expense` |
| CategorySchemas.ParseCreateCategory | src/schemas/categorySchemas.ts:6-22 | accepted exactly when every field passes; the name is trimmed and the colour defaults when omitted |
| CategorySchemas.DefaultColorIsHex | src/schemas/categorySchemas.ts:18-21 | the default colour passes the colour check |
| CategorySchemas.ParseUpdateCategory | src/schemas/categorySchemas.ts:27-41 | accepted exactly when each given field passes; omitted fields stay omitted |
| CategorySchemas.UpdateAgreesWithCreate | src/schemas/categorySchemas.ts:6-41 | an empty update is accepted, and a name and colour pass the update form exactly when they pass the create form |
| Formatters.FormatDateForInput | src/utils/formatters.ts:37-49 | empty exactly for an invalid date |
| Formatters.DateForInputRoundTrip | src/utils/formatters.ts:37-49 | for four-digit years the output has the `YYYY-MM-DD` shape and its digits read back as the year, the 1-based month and the day |
| Formatters.FormatRelativeDate | src/utils/formatters.ts:54-78 | one bucket per range: under a minute "Hace un momento", then minutes, hours, days, 30-day months below 360 days, and 365-day years |
| Formatters.ZeroYearsAgo | src/utils/formatters.ts:54-78 | from 360 to 364 days the text is "Hace 0 años" |
| Formatters.GetMonthName | src/utils/formatters.ts:83-100 | the month's name for 0 to 11, and "Desconocido" exactly outside that range |
| Formatters.TruncateText | src/utils/formatters.ts:161-167 | text that fits is unchanged; otherwise the first `maxLength` characters plus "..."; a negative length gives "..." |
| Formatters.TruncateTextSettles | src/utils/formatters.ts:161-167 | the result is at most three longer than the limit, and truncating it again with that room changes nothing |
| Formatters.CollapseSpaces | src/utils/formatters.ts:288-290 | no two whitespace characters in a row remain; empty iff empty; whitespace at either end exactly where there was some |
| Formatters.SanitizeInput | src/utils/formatters.ts:288-290 | single-spaced with no whitespace at either end |
| Formatters.WordLength | src/utils/formatters.ts:288-290 | the length of the leading run of non-whitespace characters, ended by whitespace or the end of the text |
| Formatters.WordsAreWords | src/utils/formatters.ts:288-290 | every word of a text is non-empty and holds no whitespace |
| Formatters.WordsOfTrimStart | src/utils/formatters.ts:288-290 | removing leading whitespace keeps the words |
| Formatters.WordsAppendSpaces | src/utils/formatters.ts:288-290 | appending whitespace keeps the words |
| Formatters.WordsOfTrim | src/utils/formatters.ts:288-290 | trimming keeps the words |
| Formatters.CollapseKeepsWord | src/utils/formatters.ts:288-290 | a leading word passes through collapsing untouched |
| Formatters.CollapseSpacesWords | src/utils/formatters.ts:288-290 | collapsing is the words joined by single spaces, with one space at either end exactly where the text had whitespace there |
| Formatters.CollapseTrimmed | src/utils/formatters.ts:288-290 | a text with no whitespace at either end collapses to its words joined by single spaces |
| Formatters.SanitizeJoinsWords | src/utils/formatters.ts:288-290 | sanitising is joining the words of the input with single spaces |
| Formatters.CollapseSingleSpaced | src/utils/formatters.ts:288-290 | collapsing a single-spaced text changes nothing |
| Formatters.SanitizeIdempotent | src/utils/formatters.ts:288-290 | sanitising twice is sanitising once |
| Formatters.IsValidEmail | src/utils/formatters.ts:295-298 | true exactly when the text matches `^[^\s@]+@[^\s@]+\.[^\s@]+$` |
| Formatters.TranslatePaymentMethod | src/utils/formatters.ts:180-190 | the Spanish name of a known method, any other text unchanged |
| Formatters.PaymentMethodsTranslated | src/utils/formatters.ts:180-190 | every method the expense form accepts has a translation, and different methods get different names |
| Formatters.TranslateCategoryType | src/utils/formatters.ts:195-197 | "Ingreso" exactly for `income`, "Gasto" for anything else |
| Formatters.GetBalanceColor | src/utils/formatters.ts:202-212 | green for positive, red for negative, gray for zero and for NaN |
| Formatters.UnreadableBalanceIsNeutral | src/utils/formatters.ts:202-212 | a balance written without digits is gray |
| Formatters.GetInitials | src/utils/formatters.ts:303-311 | one word gives its first two characters in upper case; several give the first letters of the first and last word; never more than two characters |
| Formatters.GetAvatarColor | src/utils/formatters.ts:316-330 | undefined exactly for an empty name, otherwise the colour indexed by the first character's code modulo 8 |
| Formatters.AvatarColorByFirstChar | src/utils/formatters.ts:316-330 | names with the same first character get the same colour |
| Helpers.TranslateTransactionType | src/utils/helpers.ts:99-105 | the Spanish name of `income` or `expense`, any other text unchanged |
| Helpers.TransactionTypeMatchesCategoryType | src/utils/helpers.ts:99-105 | on the two types it agrees with the category-type translation; elsewhere it passes the text through |
| Helpers.GetTypeColor | src/utils/helpers.ts:124-126 | the success colour exactly for `income` |
| Helpers.GetTypeBgColor | src/utils/helpers.ts:131-133 | the success background exactly for `income` |
| Helpers.TypeColorsAgree | src/utils/helpers.ts:124-133 | text colour and background come from the same palette |
| Helpers.GetPaymentMethodIcon | src/utils/helpers.ts:189-198 | the method's icon, the money bag for anything unknown |
| Helpers.IconsCoverTranslatedMethods | src/utils/helpers.ts:189-198 | the methods with an icon are exactly those with a translation |
| Helpers.CalculatePercentageChange | src/utils/helpers.ts:174-177 | from zero, 100 for a rise and 0 otherwise; else the change times 100 divided by the old value's size |
| Helpers.PercentageChangeSign | src/utils/helpers.ts:174-177 | from a non-zero value, the sign of the result is the sign of the difference |
| Helpers.FallFromZeroReadsAsNoChange | src/utils/helpers.ts:174-177 | a fall from zero reads as 0 |
| Helpers.FormatPercentage | src/utils/helpers.ts:182-184 | the one-decimal rendering followed by "%", preceded by "+" for values from zero up |
| Helpers.PlusSignIffNonNegative | src/utils/helpers.ts:182-184 | the result starts with "+" exactly for values from zero up |
| Money.CurrencyOf | src/utils/money.ts:12-16 | a currency exactly for MXN, USD and EUR, each code naming its own currency |
| Money.Round | src/utils/money.ts:44 | `Math.round`: the nearest integer, halves rounded up |
| Money.CreateMoney | src/utils/money.ts:26-47 | an unsupported currency is refused first, then NaN; otherwise the amount is rounded to whole cents |
| Money.MoneyToNumber | src/utils/money.ts:80-82 | the amount in units is the cents divided by 100 |
| Money.CreateMoneyRoundTrip | src/utils/money.ts:26-82 | creating money from an amount read back from money gives the same money |
| Money.ErrorMessage | src/utils/money.ts:32-41 | the unsupported-currency message names the code |
| Money.AddMoney | src/utils/money.ts:52-54 | the sum of the cents when the currencies agree; a mismatch error otherwise |
| Money.SubtractMoney | src/utils/money.ts:59-61 | the difference of the cents when the currencies agree; a mismatch error otherwise |
| Money.SubtractUndoesAdd | src/utils/money.ts:52-61 | subtracting what was added gives back the original |
| Money.FoldAdd | src/utils/money.ts:162 | the reduce succeeds exactly when every amount has the first one's currency, and then holds the total |
| Money.SumMoney | src/utils/money.ts:157-163 | an empty list gives zero MXN; otherwise the total of the cents when all currencies agree |
| Money.SumMoneyAppend | src/utils/money.ts:157-163 | the sum of two same-currency lists is the sum of their sums |
| Money.TotalCentsAppend | src/utils/money.ts:157-163 | the total of a concatenation is the sum of the totals |
| Money.CalculatePercentage | src/utils/money.ts:168-175 | 0 for a zero total; otherwise the part's share of the total times 100 |
| Money.PercentageOfPart | src/utils/money.ts:168-175 | a part between zero and a positive total is between 0 and 100 percent |
| Money.IsPositive | src/utils/money.ts:180-182 | true exactly for more than zero cents |
| Money.IsNegative | src/utils/money.ts:184-186 | true exactly for fewer than zero cents |
| Money.IsZero | src/utils/money.ts:188-190 | true exactly for zero cents |
| Money.SignTrichotomy | src/utils/money.ts:180-190 | exactly one of positive, negative and zero holds |
| Money.CompactSuffix | src/utils/money.ts:141-149 | B from a billion up, M from a million, K from a thousand, none below |
| Money.FormatMoneyCompact | src/utils/money.ts:128-152 | NaN gives "$0"; negative amounts start with "-$" and others with "$"; the magnitude suffix ends the text |
| Money.CompactSuffixIffMagnitude | src/utils/money.ts:128-152 | with a numeric rendering, the last character tells the magnitude range and the sign character tells the sign |
| Money.GetCurrencySymbol | src/utils/money.ts:195-203 | the symbol of a supported code, "$" otherwise |
| Money.GetCurrencyName | src/utils/money.ts:208-216 | the name of a supported code, the code itself otherwise |
| Money.CurrencyInfoCoversSupported | src/utils/money.ts:195-216 | symbols and names exist exactly for the supported currencies |
| Money.CleanAmount | src/utils/money.ts:233-247 | only digits, dots and minus signs are kept; text made only of those is unchanged; a single character is kept exactly when it is one of those |
| Money.CleanAmountIsFilter | src/utils/money.ts:233-247 | cleaning is the list filter that keeps digits, dots and minus signs, in order |
| Money.CleanAmountAppend | src/utils/money.ts:233-247 | cleaning distributes over concatenation |
| Money.ParseMoneyFromInput | src/utils/money.ts:233-247 | null when the cleaned text is not a number; otherwise the money `createMoney` makes of it |
| Money.WholeAmountFromInput | src/utils/money.ts:233-247 | "$" followed by a whole number gives that many units in cents |
| Money.NothingNumericGivesNull | src/utils/money.ts:233-247 | input without digits gives null |

## Left out

- Network and timing. Every HTTP call is a parameter: the server's reply,
  or the failure the call throws. Promise scheduling, `debounce` (timers)
  and concurrency beyond the interleavings the scenario methods build are
  not modelled.
- Redirects. `window.location` assignments in both clients are a
  `redirected` flag or a returned path.
- JSON, Intl and other host libraries:
  - `JSON.stringify` and `JSON.parse` are a codec parameter;
  - the host's `toFixed`, date parser and e-mail format check are
    parameters;
  - `formatCurrency`, `formatNumber`, `formatDate`, `formatMoney` and
    `moneyToDecimal` depend on `Intl` and are not part of this model.
- Functions not part of this model:
  - `getDateRangePreset` and `isFutureDate`, which read the clock;
  - `generateRandomColor`, which uses `Math.random`;
  - `multiplyMoney`;
  - `parseMoneyFromAPI`, a direct call of `createMoney`;
  - `capitalize` and `getStatusBadgeClass`.
- Numbers are exact reals. Floating-point rounding is not modelled; neither
  are `Infinity` and the exponent part of `parseFloat`.
- Characters are single code units, and case mapping is ASCII only.
  - Formatters.GetAvatarColor: does not model the UTF-16 surrogate pairs of
    characters outside the Basic Multilingual Plane.
  - Formatters.GetInitials: upper-cases ASCII letters only.
- Lookups in translation tables do not model inherited object keys such as
  `constructor`.
- The legacy client's query strings:
  - `URLSearchParams` percent-encoding is not modelled;
  - the order `Object.entries` gives integer-like keys is not modelled;
  - LegacyApi.RegisterPayload: a currency passed as `null` is treated like
    any passed value.
- CategoriesStore.CategoriesStore.LoadActiveCategories: when both requests
  fail, the model reports the income error. `Promise.all` reports whichever
  rejection comes first, which depends on timing.
- Formatters.FormatDateForInput: takes an already-parsed calendar date (or
  none for an invalid one). The host's parsing of date strings and time
  zones is not modelled.
- Formatters.FormatRelativeDate: takes the elapsed milliseconds. Reading
  the clock is not modelled.
- DashboardStore.DashboardStore.Reset: takes the current month as an
  argument instead of reading the clock.
- Money.ErrorMessage: states only the unsupported-currency message; the
  other messages are as written in its body.
