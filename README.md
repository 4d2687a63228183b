# Todo client core, modelled in Dafny

A model of the client-side rules of a small todo web application. It covers:

- the personal list's state store: filters, pagination, and the three store operations;
- the filter bar that drives that store;
- the personal and admin list views: page defaults, page buttons, and the state each can reach through its controls;
- the request layer: unwrapping the `{content, message, errors}` envelope, and turning filters and pagination into ordered query parameters;
- the route guard and its three presets;
- the start-up session reconciliation;
- the registration form's field composition and its reaction to the register request;
- the length and enum rules of the validation schemas.

Files and modules:

| file | module | models |
|---|---|---|
| `wrappers.dfy` | `Wrappers` | `Option`, `Result` |
| `decimal.dfy` | `Decimal` | `String(n)` / `n.toString()` and `Number(text)` on decimal digit strings |
| `todo_types.dfy` | `TodoTypes` | users, filters, pagination, partial objects and their spread merge |
| `todo_store.dfy` | `TodoStore` | `useTodoStore`: a `Store` class and the pure `Apply` that specifies it |
| `status_select.dfy` | `StatusSelect` | the status select shared by both lists |
| `todo_filters.dfy` | `TodoFiltersBar` | `TodoFilters`: the store call each control makes |
| `todo_list.dfy` | `TodoListView` | `TodoList`: the view, the page buttons, and the reachable states |
| `api.dfy` | `Api` | `unwrap`, `todoApi.getAll` and `adminApi.getAllTodos` parameter building |
| `admin_todo_list.dfy` | `AdminTodoList` | `AdminTodoList`: an `AdminList` class over local state, and the reachable states |
| `auth_guard.dfy` | `AuthGuard` | `AuthGuard`, `ProtectedRoute`, `AdminRoute`, `GuestRoute` |
| `auth_provider.dfy` | `AuthProvider` | `AuthProvider.verifyAuth` and the loading gate |
| `register_form.dfy` | `RegisterForm` | `RegisterForm`: full name, e-mail suffix, register callbacks |
| `schemas.dfy` | `Schemas` | `loginSchema`, `registerSchema`, `todoSchema`, `todoFiltersSchema` |

Modelling choices:

- Values are modelled as datatypes.
- The things the source updates in place are classes whose methods are each proved equal to a pure function of the old state:
  - the zustand store;
  - the admin list's `useState` pair;
  - the session store and the provider's loading flag;
  - the registration form's fields.
- The parameter builders append to a buffer step by step, so they are methods. Each is proved equal to a specification sequence whose contents and order are established by lemmas.
- A key that is absent from an object is `None`, and so is a key whose value is `undefined`. A partial object, used as a patch, distinguishes "key absent" (`None`) from "key present with value `undefined`" (`Some(None)`), because the spread operator treats them differently.

Where the code differs from the application's documented behaviour, the model follows the code:

- `AdminRoute` sends an unauthenticated visitor to the login page, not the dashboard. The first rule of the guard wins.
- A page size change on the personal list keeps the current page. Only the admin list resets the page to 1.
- `resetFilters` restores a page size of 10, while a fresh store starts at 5.
- The admin list fetches through `todoApi.getAll`, not `adminApi.getAllTodos`. Its request therefore carries `filters` and `orderRule` in the general format. `adminApi.getAllTodos` is modelled on its own all the same.

## Model

| member | source | states |
|---|---|---|
| TodoStore.Store.constructor | src/store/useTodoStore.ts:13-21 | the store starts with no status filter, page 1, 5 rows, ascending by `createdAt` |
| TodoStore.Store.SetFilters | src/store/useTodoStore.ts:22-26 | the new state is the patch merged over the filters, with the page set to 1 |
| TodoStore.Store.SetPagination | src/store/useTodoStore.ts:27-30 | the new state is the patch merged over the pagination; the filters are unchanged |
| TodoStore.Store.ResetFilters | src/store/useTodoStore.ts:31-35 | the new state is no filter, page 1, 10 rows, ascending by `createdAt` |
| TodoStore.Store.Dispatch | src/store/useTodoStore.ts:22-35 | each store call moves the state exactly as `Apply` says |
| TodoStore.SetFiltersEffect | src/store/useTodoStore.ts:22-26 | only the keys present in the patch change (an explicit `undefined` clears the filter); the page becomes 1; limit, order rule and order key are kept |
| TodoStore.SetFiltersIdempotent | src/store/useTodoStore.ts:22-26 | applying the same filter patch twice equals applying it once |
| TodoStore.SetPaginationEffect | src/store/useTodoStore.ts:27-30 | each pagination field takes the patch's value when present and is kept otherwise; the filters never change |
| TodoStore.LimitChangeKeepsPage | src/store/useTodoStore.ts:27-30 | a page size change leaves the page (and everything else) as it was |
| TodoStore.ResetIsConstant | src/store/useTodoStore.ts:31-35 | the reset forgets the prior state entirely, is idempotent, and lands on 10 rows |
| TodoStore.ResetDiffersFromInitial | src/store/useTodoStore.ts:16-21 | the reset state differs from a fresh store: 10 rows against 5 |
| StatusSelect.StatusValue | src/components/todos/TodoFilters.tsx:23-28 | the shown status is always one of `all`, `completed`, `pending` |
| StatusSelect.StatusValueMeaning | src/components/todos/TodoFilters.tsx:23-28 | `all`, `completed` and `pending` are shown exactly for no filter, `true` and `false` |
| StatusSelect.StatusPatchMeaning | src/components/todos/TodoFilters.tsx:13-21 | a selection acts exactly when it is one of the three values, and then sets `isDone` explicitly to undefined, true or false |
| StatusSelect.StatusRoundTrip | src/components/todos/TodoFilters.tsx:13-28 | after selecting a value, the select shows that value, whatever the filters were |
| StatusSelect.StatusReselect | src/components/todos/TodoFilters.tsx:13-28 | re-selecting the shown value leaves the filters unchanged |
| TodoFiltersBar.StatusChangeEffect | src/components/todos/TodoFilters.tsx:13-21 | each status value makes its `setFilters` call, and an unknown value makes none |
| TodoFiltersBar.StatusChangeRoundTrip | src/components/todos/TodoFilters.tsx:13-28 | after a status selection through the store, the select shows it and the list is on page 1 |
| TodoFiltersBar.LimitChangeEffect | src/components/todos/TodoFilters.tsx:45-48 | the limit select sets only the page size, to the number selected |
| TodoFiltersBar.LimitSelectRoundTrip | src/components/todos/TodoFilters.tsx:45-56 | every offered size parses, and the select then shows the same text |
| TodoFiltersBar.LimitReselect | src/components/todos/TodoFilters.tsx:46-47 | re-selecting the shown page size changes nothing |
| TodoFiltersBar.OrderAndClearEffect | src/components/todos/TodoFilters.tsx:61-79 | the order select sets only the order rule; Clear yields the reset state |
| TodoListView.ViewPrecedence | src/components/todos/TodoList.tsx:29-66 | loading wins over an error, which wins over data; entries show only for a non-empty page, and controls only when there is more than one page |
| TodoListView.PageDefaults | src/components/todos/TodoList.tsx:45-47 | a falsy page reads as 1; a missing or zero page count reads as 1 |
| TodoListView.PageButtonsStayInRange | src/components/todos/TodoList.tsx:73-91 | from a page in range, an enabled button moves to a page in range; Previous is disabled exactly on page 1 and Next exactly on the last page |
| TodoListView.PageChangeEffect | src/components/todos/TodoList.tsx:25-27 | a page change moves only the page |
| TodoListView.StepKeepsReachable | src/components/todos/TodoList.tsx:54-91 | one enabled control keeps page >= 1, an offered page size and the `createdAt` sort key |
| TodoListView.RunKeepsReachable | src/components/todos/TodoList.tsx:54-91 | any run of enabled controls from a reachable state stays reachable |
| TodoListView.InitialReachable | src/store/useTodoStore.ts:13-21 | the store's initial state is reachable |
| TodoListView.LimitChangeKeepsPageTwo | src/components/todos/TodoFilters.tsx:47 | Next followed by choosing 20 rows leaves the list on page 2 |
| Api.Unwrap | src/lib/api.ts:31-36 | fails exactly when `errors` is present and non-empty, with the errors joined by ", "; otherwise yields `content` |
| Api.UnwrapSingleError | src/lib/api.ts:31-36 | a single error is reported verbatim |
| Api.JoinLength | src/lib/api.ts:33 | the joined message is every error plus one separator between neighbours |
| Api.JoinStartsWithFirst | src/lib/api.ts:33 | the joined message starts with the first error, then the separator |
| Api.CleanEntries | src/lib/api.ts:64-69 | an entry survives exactly when its value is neither `undefined` nor the empty string |
| Api.CleanEntriesAppend | src/lib/api.ts:64-69 | cleaning keeps the original order: cleaning a concatenation is the concatenation of the cleaned parts |
| Api.CleanEntriesSingle | src/lib/api.ts:64-69 | a single entry survives exactly when its value is neither `undefined` nor the empty string |
| Api.CleanEntriesIdempotent | src/lib/api.ts:64-69 | cleaning a cleaned list changes nothing |
| Api.TodoQueryParams | src/lib/api.ts:58-88 | the list request sends exactly the value `TodoSent` names for each key, each key at most once, in the order filters, orderRule, orderKey, page, rows |
| Api.BuildTodoQuery | src/lib/api.ts:62-88 | the appended parameters are exactly `TodoQuery` |
| Api.FilterParamAbsent | src/lib/api.ts:64-73 | no filters, or `isDone: undefined`, send no `filters` parameter |
| Api.FilterParamSent | src/lib/api.ts:64-73 | `isDone` true or false is sent as `{"isDone":true}` or `{"isDone":false}` |
| Api.PaginationParamNames | src/lib/api.ts:83-88 | the page size travels as `rows` (no parameter is named `limit`), and a falsy page or size is left out |
| Api.AdminQueryParams | src/lib/api.ts:115-128 | the admin request sends exactly the value `AdminSent` names for each key, in the order isDone, page, rows |
| Api.AdminQueryHasNoOrdering | src/lib/api.ts:115-128 | the admin request never carries `orderRule` or `orderKey` |
| Api.BuildAdminQuery | src/lib/api.ts:116-126 | the appended parameters are exactly `AdminQuery` |
| AdminTodoList.AdminList.constructor | src/components/admin/AdminTodoList.tsx:13-18 | the admin list starts with no filter, page 1, 10 rows, ascending, and no sort key |
| AdminTodoList.AdminList.HandlePageChange | src/components/admin/AdminTodoList.tsx:30-32 | only the page changes |
| AdminTodoList.AdminList.HandleFiltersChange | src/components/admin/AdminTodoList.tsx:34-37 | the patch is merged over the filters and the page returns to 1 |
| AdminTodoList.AdminList.HandleStatusChange | src/components/admin/AdminTodoList.tsx:46-54 | a known status goes through the filter change; an unknown one changes nothing |
| AdminTodoList.AdminList.HandleLimitChange | src/components/admin/AdminTodoList.tsx:82-89 | the page size is set and the page returns to 1; the filters are kept |
| AdminTodoList.ChangesResetPage | src/components/admin/AdminTodoList.tsx:30-37 | filter and page size changes land on page 1 and keep the other fields; a page change keeps the filters and the size |
| AdminTodoList.AdminStatusRoundTrip | src/components/admin/AdminTodoList.tsx:39-54 | a known status round-trips through the select and lands on page 1; an unknown value is ignored |
| AdminTodoList.AdminButtons | src/components/admin/AdminTodoList.tsx:72-74 | the page count defaults to 1; Previous is disabled from page 1 down, Next from the last page on |
| AdminTodoList.AdminPageButtonsStayInRange | src/components/admin/AdminTodoList.tsx:171-192 | from a page in range, an enabled button moves to a page in range; Previous is disabled exactly on page 1 and Next exactly on the last page |
| AdminTodoList.AdminPageZero | src/components/admin/AdminTodoList.tsx:74 | with no default for a falsy page, page 0 disables Previous and Next moves to page 1, where the personal list would move to page 2 |
| AdminTodoList.StepKeepsReachable | src/components/admin/AdminTodoList.tsx:171-192 | one enabled control keeps page >= 1, an offered size, ascending order and no sort key |
| AdminTodoList.RunKeepsReachable | src/components/admin/AdminTodoList.tsx:26 | after any run of enabled controls, the state is reachable and the request carries no `orderKey` |
| AdminTodoList.InitialReachable | src/components/admin/AdminTodoList.tsx:13-18 | the admin list's initial state is reachable |
| AuthGuard.Redirect | src/components/guards/AuthGuard.tsx:22-41 | any redirect goes to `redirectTo` or the login page, the dashboard, or `/admin` |
| AuthGuard.RenderAgreesWithEffect | src/components/guards/AuthGuard.tsx:22-55 | children render exactly when the effect issues no redirect |
| AuthGuard.UnauthenticatedTarget | src/components/guards/AuthGuard.tsx:23-26 | a missing session where one is required goes to a non-empty `redirectTo`, else to `/auth/login` |
| AuthGuard.ProtectedRouteDecision | src/components/guards/AuthGuard.tsx:58-64 | every authenticated session is admitted, whatever its role; others go to login |
| AuthGuard.AdminRouteDecision | src/components/guards/AuthGuard.tsx:66-72 | unauthenticated goes to login, a non-admin to the dashboard, and an admin is admitted |
| AuthGuard.GuestRouteDecision | src/components/guards/AuthGuard.tsx:74-80 | an authenticated admin goes to `/admin`, other authenticated sessions to the dashboard, and a guest is admitted |
| AuthGuard.GuestAndProtectedExclusive | src/components/guards/AuthGuard.tsx:43-80 | for every session exactly one of the guest and the protected page renders |
| AuthProvider.SessionStore.SetAuth | src/components/providers/AuthProvider.tsx:30-32 | the session holds the given user and token |
| AuthProvider.SessionStore.Logout | src/components/providers/AuthProvider.tsx:34-40 | the session holds no user and no token |
| AuthProvider.ReconcileOutcome | src/components/providers/AuthProvider.tsx:16-44 | afterwards the session is unchanged or empty; there is no call without a truthy token; a failed verify logs out; after a successful verify the session is kept exactly when it had a user and the same token |
| AuthProvider.KeptSessionIsVerified | src/components/providers/AuthProvider.tsx:24-36 | a session still present afterwards holds the persisted, verified token |
| AuthProvider.Provider.VerifyAuth | src/components/providers/AuthProvider.tsx:16-44 | loading ends; verify is called exactly for a truthy token; the store call and the new session are those of `Reconcile` |
| Decimal.NatToString | src/lib/api.ts:84 | the numeral is non-empty, all digits, and has no leading zero |
| Decimal.ParseNatToString | src/components/todos/TodoFilters.tsx:46-47 | `Number(String(n)) == n` |
| Decimal.NatToStringParse | src/components/todos/TodoFilters.tsx:46-47 | a digit string with no leading zero is the numeral of its value |
| Schemas.LoginIssues | src/lib/schemas.ts:3-6 | the password passes exactly from 6 characters, and otherwise fails with its one message |
| Schemas.RegisterIssues | src/lib/schemas.ts:8-12 | the name issue appears exactly below 2 characters and the password issue exactly below 6; there are no issues exactly when both pass |
| Schemas.TodoIssues | src/lib/schemas.ts:14-16 | the item passes exactly when non-empty |
| Schemas.FiltersValidMeaning | src/lib/schemas.ts:18-22 | the status may be absent, or exactly `all`, `completed` or `pending` |
| Schemas.FiltersSchemaMatchesStatusSelect | src/lib/schemas.ts:18-22 | every status the select shows passes the filter schema, and a present status passes exactly when the select acts on it |
| Schemas.MessagesDistinct | src/lib/schemas.ts:5-15 | the three messages are pairwise different |
| RegisterForm.TrimStart | src/components/auth/RegisterForm.tsx:70 | the result is a suffix with only white space cut away, and it does not start with white space |
| RegisterForm.TrimEnd | src/components/auth/RegisterForm.tsx:70 | the result is a prefix with only white space cut away, and it does not end with white space |
| RegisterForm.Trim | src/components/auth/RegisterForm.tsx:70 | the result is no longer than the input and neither starts nor ends with white space |
| RegisterForm.TrimSlice | src/components/auth/RegisterForm.tsx:70 | the result is a contiguous slice of the input with only white space cut away on either side |
| RegisterForm.BlankNamesGiveEmpty | src/components/auth/RegisterForm.tsx:70 | blank names give an empty full name |
| RegisterForm.EmptyNamesFailSchema | src/components/auth/RegisterForm.tsx:70 | empty names give a full name the register schema rejects with the name message |
| RegisterForm.PlainNamesJoined | src/components/auth/RegisterForm.tsx:70 | names without edge white space are joined by exactly one space |
| RegisterForm.FirstNameOnly | src/components/auth/RegisterForm.tsx:70 | a first name alone loses only the separating space |
| RegisterForm.SubmittedEmail | src/components/auth/RegisterForm.tsx:107 | the address is the typed text followed by `@squareteam.com` |
| RegisterForm.SubmittedEmailInjective | src/components/auth/RegisterForm.tsx:107 | different typed texts give different addresses |
| RegisterForm.Form.TypeFirstName | src/components/auth/RegisterForm.tsx:70-73 | the first name is stored, and the full name is written from the names before the keystroke |
| RegisterForm.Form.TypeLastName | src/components/auth/RegisterForm.tsx:70-74 | the last name is stored, and the full name is written from the names before the keystroke |
| RegisterForm.Form.TypeEmail | src/components/auth/RegisterForm.tsx:70-107 | the suffixed address is written, and the full name is written from the current names |
| RegisterForm.Form.TypeOther | src/components/auth/RegisterForm.tsx:70 | only the full name is rewritten, from the current names |
| RegisterForm.LaterKeystrokeCatchesUp | src/components/auth/RegisterForm.tsx:70 | a keystroke outside the name fields brings the full name up to date |
| RegisterForm.NameKeystrokeLags | src/components/auth/RegisterForm.tsx:70-73 | a first-name change event (a pasted name) leaves the full name one change event behind until the next change elsewhere |
| RegisterForm.LastNameKeystrokeLost | src/components/auth/RegisterForm.tsx:70-74 | with the e-mail and password entered first, pasting "Ann" then "Lee" into the empty name fields leaves the full name "Ann", which the schema accepts; the e-mail is untouched |
| RegisterForm.LetterByLetterLosesLastLetter | src/components/auth/RegisterForm.tsx:70-74 | typing the same names letter by letter, one change event per letter, leaves the full name "Ann Le": the last letter typed is lost |
| RegisterForm.FirstNameTypedIntended | src/components/auth/RegisterForm.tsx:70-73 | the intended first-name handler keeps the full name current |
| RegisterForm.LastNameTypedIntended | src/components/auth/RegisterForm.tsx:70-74 | the intended last-name handler keeps the full name current |
| RegisterForm.IntendedKeepsLastName | src/components/auth/RegisterForm.tsx:70-74 | with the intended handlers the same pasted names give "Ann Lee" |
| RegisterForm.RegisterReaction | src/components/auth/RegisterForm.tsx:36-44 | success installs exactly the returned user and token, opens the dashboard and is the only outcome with the "Account created successfully!" toast; a failure installs nothing and navigates nowhere; an HTTP failure shows the server's non-empty message, and an HTTP failure without one, or an envelope error, shows "Registration failed" |

## Left out

- HTTP transport: the axios instance, the base URL and the bearer-token interceptor. The verify outcome and the register outcome are inputs to the model.
- React Query: caching, stale times, query keys, refetching, and the ordering of concurrent requests.
- Browser storage, the router and toasts: the persisted token is an input, and navigation and toasts are results.
- The session store (`useAuthStore`) is not part of this model. `setAuth` is taken to install both user and token and `logout` to clear both. The guard takes `isAuthenticated` as given rather than deriving it.
- `Number(text)` is modelled only for decimal digit strings. The selects offer only `5`, `10`, `20` and `50`.
- AdminTodoList.AdminList.HandleLimitChange: requires a decimal digit string, as `TodoFiltersBar.LimitChange` does, because other texts would give NaN or a fraction; every offered page size meets this.
- NaN, fractional and unsafe-integer pages and page sizes are not modelled: `page` and `limit` are integers.
- `JSON.stringify` is modelled without string escaping, and URL percent-encoding is not modelled. Parameters are kept as name-value pairs in order.
- The e-mail format rules of `loginSchema` and `registerSchema` are not modelled. zod measures length in UTF-16 code units, while the model counts characters.
- `todoApi.create`, `mark` and `delete`, `authApi.login`, and the toggle and delete mutations are outside this model. So are the login form, the create form, the layouts, the pages and the date formatting helpers.
- The server computes the page count (`totalPage`). The lists take it as an input.
- The register mutation's pending state is not modelled.
- The password the form submits is not held in the form state. Its value is checked only by `Schemas.RegisterIssues`; a change event in the password field is modelled as `RegisterForm.Form.TypeOther`, which rewrites the full name.
- The fields the form does not submit (phone, country, confirmation, about) are not modelled beyond their change events rewriting the full name.
- `AuthProvider.Provider.VerifyAuth` models one completed attempt: the effect's single run and its `finally` are collapsed into one method.

## Findings

| source | as written | input that shows it | evidently intended | confidence | as-written member | corrected member |
|---|---|---|---|---|---|---|
| src/components/auth/RegisterForm.tsx:70-74 | the form's change handler writes the full name from the first and last names of the current render, which do not yet include the keystroke being handled | enter e-mail and password, then paste "Ann" as first name and "Lee" as last name (one change event each), then submit: the full name sent is "Ann", which passes the two-character rule; typed letter by letter the full name sent is "Ann Le" | the full name follows the names as they are after each change event, giving "Ann Lee" | high, not executed | RegisterForm.LastNameKeystrokeLost | RegisterForm.IntendedKeepsLastName |
