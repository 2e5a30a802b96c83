# SplitBuddy client state, modelled in Dafny

SplitBuddy is a React Native expense-sharing app. This project models its client-side state
layer: the Redux slices that hold categories, groups, payment methods, expenses, the session,
users, settings and toasts; the redux-saga workers that call the services and dispatch the
results; and the selection helpers of the MultiSelect component. Both generations of the store
are modelled: the legacy slices and sagas directly under `src/store/`, and the newer ones under
`src/store/slices/` and `src/store/sagas/`.

How the model is organised:

- **Slices.** There is one module per slice (`CategorySlice`, `LegacyExpenseSlice`, ...). Each
  has a state datatype, an initial state, and an action datatype with one constructor per case
  reducer. `Reduce(s, a)` is the reducer as a pure function, and `ReduceAll` folds it over a
  sequence of actions.
- **Stores.** Each slice also has a class (`CategoryStore`, ...). Its fields are the slice
  state, and it has one method per case reducer. The method assigns the fields in place, as
  the Immer-backed reducer does, and its contract ties the new state to `Reduce` of the old
  one. The properties the source promises are lemmas about `Reduce`.
- **Workers.** A saga worker is a function from the service's outcome to the effects it
  yields: `Call(c)` for `yield call(...)`, `Put(a)` for `yield put(...)`. `Puts` and `Calls`
  extract the dispatched actions and the service calls in order. A service call is an oracle
  outcome, `Ok(value)` or `Err(error)`. Feeding a worker's puts to `ReduceAll` gives the
  lemmas about whole runs, such as refetch convergence and "nothing else changes".
- **Errors.** A rejection in the newer generation is `ApiError(message, responseMessage)`.
  Workers report `error.message` or `error.response?.data?.message || default`; the second is
  modelled by `ResponseMessageOr`, where an empty server message also falls back. The legacy
  workers distinguish an `Error` instance from any other thrown value (`ThrownMessageOr`).
- **Whole store and login.** `AppStore` composes the eight newer slices into one state. The
  login worker's fan-out of six fetch requests reaches several slices, so it is stated against
  this composed state.
- **MultiSelect.** `MultiSelect` models the component's pure helpers: toggling, the
  case-insensitive search, the selected-first ordering, the truncated display text and the
  field label's fallback.

Where the design description of the app and the code disagree, the model follows the code:

- No reducer clears the other slices on logout. `AppStore.SessionEndKeepsOtherSlices` and
  `AuthSaga.LogoutKeepsOtherSlices` state that they are left as they were.
- A slice's status is a `loading` flag plus an optional `error` (and a `success` message or
  `passwordResetSuccess` in some slices). It is not a single status value.
- Create reducers append without checking ids. Distinct ids are therefore a precondition of
  some lemmas, not an invariant. `CategorySlice.UniqueIdsPreserved` and its siblings state
  exactly when distinct ids survive an action.

## Model

| member | source | states |
|---|---|---|
| Common.ResponseMessageOr | src/store/sagas/userSaga.ts:24 | `error.response?.data?.message || fallback`: the server message when present and non-empty, otherwise the fallback; never empty when the fallback is not |
| Common.ThrownMessageOr | src/store/expenseSagas.ts:37-41 | an `Error` instance yields its own message, any other thrown value the worker's fixed message |
| Common.CallThen | src/store/sagas/categorySaga.ts:31-39 | the shape of a worker: exactly one service call, first, followed by the given puts in order |
| Common.PutThen | src/store/userSagas.ts:20-28 | a put ahead of the rest: the puts are that action followed by the rest's, the calls are the rest's |
| Common.CallBefore | src/store/settingsSagas.ts:15-20 | a call ahead of the rest: the calls are that call followed by the rest's, the puts are the rest's |
| Common.PutAll | src/store/authSagas.ts:42-54 | a worker that only puts: one Put effect per action, in order |
| Common.PutAllPuts | src/store/authSagas.ts:42-54 | such a worker puts exactly its actions and calls nothing |
| Lists.Filter | src/store/slices/categorySlice.ts:64 | `filter`: every kept element passes the test and comes from the list, every passing element is kept, and the result is no longer |
| Lists.FilterIsSubsequence | src/components/MultiSelect.tsx:58-60 | `filter` keeps the surviving elements in their original order (an index map into the list exists) |
| Lists.FilterKeepsAll | src/components/MultiSelect.tsx:58-60 | a test that every element passes filters nothing out |
| Lists.FilterIdempotent | src/store/slices/categorySlice.ts:64 | filtering twice with one test is filtering once |
| Lists.FilterConcat | src/components/MultiSelect.tsx:62-64 | filtering distributes over concatenation |
| Lists.FilterPartition | src/components/MultiSelect.tsx:62-64 | the elements that pass a test followed by those that fail it are a permutation of the list (equal multisets) |
| Lists.FindIndexById | src/store/slices/categorySlice.ts:49 | `findIndex` by id: -1 exactly when no element has the id, otherwise the first position that has it |
| Lists.ReplaceFirstById | src/store/slices/categorySlice.ts:49-52 | same length; the first element with the payload's id becomes the payload and every other element stays; no match leaves the list as it was |
| Lists.MapMatching | src/store/slices/paymentMethodSlice.ts:49-54 | `map` over matching ids: same length, every element with the id rewritten and every other element kept |
| Lists.RemoveById | src/store/slices/categorySlice.ts:64 | no element with the id remains, every remaining element comes from the list, and every element with another id survives |
| Lists.RemoveAbsentId | src/store/slices/categorySlice.ts:62-65 | deleting an id no element has changes nothing |
| Lists.RemoveAppended | src/components/MultiSelect.tsx:44-47 | appending an element whose id is new and deleting that id gives back the list |
| Lists.RemoveByIdKeepsOtherIds | src/components/MultiSelect.tsx:44-47 | deleting one id leaves the presence of every other id as it was, in both directions |
| Lists.RemoveByIdIdempotent | src/store/slices/categorySlice.ts:62-65 | deleting the same id twice is deleting it once |
| Lists.RemoveByIdIsSubsequence | src/store/slices/categorySlice.ts:62-65 | deleting keeps the surviving elements in their original order |
| Lists.ReplaceFirstIsMapWhenUnique | src/store/slices/paymentMethodSlice.ts:47-56 | on a list with distinct ids the `findIndex` update and the `map` update agree |
| Lists.ReplaceFirstDiffersFromMapOnDuplicates | src/store/slices/categorySlice.ts:47-53 | with a duplicated id they differ: `findIndex` replaces only the first copy, `map` both |
| Lists.ReplaceFirstKeepsUniqueIds | src/store/slices/categorySlice.ts:47-53 | replacing at the first match keeps ids distinct |
| Lists.FilterKeepsUniqueIds | src/store/slices/categorySlice.ts:64 | filtering keeps ids distinct |
| Lists.RemoveByIdKeepsUniqueIds | src/store/slices/categorySlice.ts:62-65 | deleting keeps ids distinct |
| Lists.AppendKeepsUniqueIds | src/store/slices/categorySlice.ts:35-38 | appending keeps ids distinct exactly when the appended id is new |
| Entities.MergePaymentMethod | src/store/slices/paymentMethodSlice.ts:49-54 | `{ ...pm, ...payload }`: id and authorId from the payload, the name from the payload when it has one, the timestamps kept |
| Entities.SpreadUser | src/store/slices/userSlice.ts:62-66 | `{ ...profile, ...payload }`: required fields from the payload; optional fields are the union, the payload's value winning |
| CategorySlice.RequestOnlyRaisesLoading | src/store/slices/categorySlice.ts:20-22 | each of the four requests sets `loading` and nothing else; a stale error survives |
| CategorySlice.FailureKeepsCategories | src/store/slices/categorySlice.ts:27-30 | each failure stores its message, ends loading and keeps the list |
| CategorySlice.SettledActionsClearLoading | src/store/slices/categorySlice.ts:23-69 | every success and failure ends loading, and only failures touch `error` |
| CategorySlice.FetchReplacesList | src/store/slices/categorySlice.ts:23-26 | the fetched list becomes the list exactly, and loading ends |
| CategorySlice.CreateAppends | src/store/slices/categorySlice.ts:35-38 | create appends at the end: one longer, earlier elements in place, the payload last |
| CategorySlice.UpdateReplacesFirstMatch | src/store/slices/categorySlice.ts:47-53 | update replaces only the first category with the payload's id; with no match only loading changes |
| CategorySlice.DeleteRemovesAll | src/store/slices/categorySlice.ts:62-65 | delete removes every category with the id, keeps the others in order, and is idempotent |
| CategorySlice.UniqueIdsPreserved | src/store/slices/categorySlice.ts:23-65 | distinct ids survive an action exactly when a fetched list has distinct ids and a created category has a new id |
| GroupSlice.RequestOnlyRaisesLoading | src/store/slices/groupSlice.ts:22-24 | each request sets `loading` and nothing else; a stale error survives |
| GroupSlice.FailureKeepsGroups | src/store/slices/groupSlice.ts:30-33 | each failure stores its message, ends loading and keeps the list |
| GroupSlice.SettledActionsClearLoading | src/store/slices/groupSlice.ts:25-72 | every success and failure ends loading, and only failures touch `error` |
| GroupSlice.FetchReplacesList | src/store/slices/groupSlice.ts:25-29 | the fetched list becomes the list exactly, and loading ends |
| GroupSlice.CreateAppends | src/store/slices/groupSlice.ts:38-41 | create appends at the end: one longer, earlier elements in place, the payload last |
| GroupSlice.UpdateReplacesFirstMatch | src/store/slices/groupSlice.ts:50-56 | update replaces only the first group with the payload's id; with no match only loading changes |
| GroupSlice.DeleteRemovesAll | src/store/slices/groupSlice.ts:65-68 | delete removes every group with the id, keeps the others in order, and is idempotent |
| GroupSlice.UniqueIdsPreserved | src/store/slices/groupSlice.ts:25-68 | distinct ids survive an action exactly when a fetched list has distinct ids and a created group has a new id |
| PaymentMethodSlice.RequestOnlyRaisesLoading | src/store/slices/paymentMethodSlice.ts:20-22 | each request sets `loading` and nothing else |
| PaymentMethodSlice.FailureKeepsPaymentMethods | src/store/slices/paymentMethodSlice.ts:27-30 | each failure stores its message, ends loading and keeps the list |
| PaymentMethodSlice.SettledActionsClearLoading | src/store/slices/paymentMethodSlice.ts:23-72 | every success and failure ends loading, and only failures touch `error` |
| PaymentMethodSlice.FetchReplacesList | src/store/slices/paymentMethodSlice.ts:23-26 | the fetched list becomes the list exactly |
| PaymentMethodSlice.CreateAppends | src/store/slices/paymentMethodSlice.ts:35-38 | create appends at the end |
| PaymentMethodSlice.UpdateMergesEveryMatch | src/store/slices/paymentMethodSlice.ts:47-56 | update merges the payload over every entry with its id (not only the first): name from the payload when present, timestamps kept; other entries and the length unchanged; no match changes only loading |
| PaymentMethodSlice.MergeMatchingKeepsIds | src/store/slices/paymentMethodSlice.ts:49-54 | the merge keeps every id at its position |
| PaymentMethodSlice.DeleteRemovesAll | src/store/slices/paymentMethodSlice.ts:65-68 | delete removes every entry with the id, keeps the others in order, and is idempotent |
| PaymentMethodSlice.UniqueIdsPreserved | src/store/slices/paymentMethodSlice.ts:23-68 | distinct ids survive an action exactly when a fetched list has distinct ids and a created entry has a new id |
| ExpenseSlice.RequestClearsError | src/store/slices/expenseSlice.ts:21-24 | every request raises loading and clears the error, leaving the page alone |
| ExpenseSlice.FailureKeepsExpenses | src/store/slices/expenseSlice.ts:29-32 | each failure stores its message, ends loading and keeps the page |
| ExpenseSlice.FetchStoresPage | src/store/slices/expenseSlice.ts:25-28 | the fetched page record is stored verbatim, paging fields included |
| ExpenseSlice.CreateAppendsToPage | src/store/slices/expenseSlice.ts:38-41 | create appends to the loaded page's list, paging fields unchanged; a null page stays null |
| ExpenseSlice.UpdateReplacesFirstMatch | src/store/slices/expenseSlice.ts:51-62 | update replaces only the first expense with the payload's id; a null page or no match changes only loading |
| ExpenseSlice.DeleteFiltersPage | src/store/slices/expenseSlice.ts:72-79 | delete filters the page's list and leaves `total` and the paging fields alone; a null page stays null; idempotent |
| AuthSlice.RequestStartsLoading | src/store/slices/authSlice.ts:35-38 | every request raises loading and clears the error, touching nothing of the session |
| AuthSlice.FailureKeepsSession | src/store/slices/authSlice.ts:52-130 | every failure stores its message and ends loading, keeps user and token, and only login and register failures drop `isAuthenticated` |
| AuthSlice.LoginSignsIn | src/store/slices/authSlice.ts:39-51 | login success takes user and token from the payload, authenticates, and clears error and logout reason |
| AuthSlice.RegisterSignsInKeepingReason | src/store/slices/authSlice.ts:64-70 | register success signs in like login but keeps the previous logout reason |
| AuthSlice.LoginFailureKeepsUserAndToken | src/store/slices/authSlice.ts:52-57 | a failed login is unauthenticated with the message, and keeps the stale user and token |
| AuthSlice.LogoutSignsOut | src/store/slices/authSlice.ts:82-92 | logout success clears user and token, drops `isAuthenticated` and records the given reason, from any state |
| AuthSlice.LogoutFailureKeepsSession | src/store/slices/authSlice.ts:93-96 | a failed logout changes only loading and error; a signed-in session stays signed in |
| AuthSlice.RefreshTokenNeedsUser | src/store/slices/authSlice.ts:103-110 | refresh replaces the token only when a user is present and never changes the modelled user fields |
| AuthSlice.ForgotPasswordOutcome | src/store/slices/authSlice.ts:121-130 | the reset flag is raised by success and lowered by failure |
| AuthSlice.LoginThenLogout | src/store/slices/authSlice.ts:39-92 | a login followed by a logout leaves no user or token, whatever came before |
| UserSlice.HalvesAreIndependent | src/store/slices/userSlice.ts:28-102 | profile actions touch only profile, loading and error; users-list actions only users, usersLoading and usersError |
| UserSlice.UpdateProfileOverlays | src/store/slices/userSlice.ts:62-66 | the update overlays the payload on the profile: payload fields win, fields the payload lacks are kept; a null profile becomes the payload |
| UserSlice.UpdateProfileIdempotent | src/store/slices/userSlice.ts:62-66 | applying the same profile update twice is applying it once |
| UserSlice.ProfileFailureKeepsProfile | src/store/slices/userSlice.ts:37-70 | profile failures store the message and keep the profile |
| UserSlice.FetchUsersReplacesList | src/store/slices/userSlice.ts:77-83 | the fetched users replace the list and clear `usersError`; the profile is untouched |
| UserSlice.ClearUserErrorOnlyErrors | src/store/slices/userSlice.ts:105-108 | clearUserError nulls both errors and nothing else |
| UserSlice.ResetKeepsUsers | src/store/slices/userSlice.ts:111-115 | resetUserProfile nulls profile and error and ends loading; the users half is untouched |
| SettingsSlice.RequestOnlyRaisesLoading | src/store/slices/settingsSlice.ts:20-34 | both requests raise loading and leave data and error alone |
| SettingsSlice.SuccessStoresSettings | src/store/slices/settingsSlice.ts:23-39 | both successes store the payload, end loading and clear the error |
| SettingsSlice.FailureKeepsSettings | src/store/slices/settingsSlice.ts:28-43 | both failures store the message, end loading and keep the previous data |
| SettingsSlice.LoadingIffRequest | src/store/slices/settingsSlice.ts:20-43 | after any action the slice is loading exactly when the action was a request |
| ToastSlice.WithDefaultPosition | src/store/slices/toastSlice.ts:17-22 | the payload's message and type are kept and the position is the given one or 'bottom' |
| ToastSlice.ShowToastShows | src/store/slices/toastSlice.ts:17-22 | after showToast a toast is present with the payload's message and type and a defined position |
| ToastSlice.HideToastHides | src/store/slices/toastSlice.ts:23-25 | hideToast from any state gives the initial state (no toast) |
| ToastSlice.ToastIdempotent | src/store/slices/toastSlice.ts:17-25 | showing the same toast twice, or hiding twice, is doing it once |
| ToastSlice.ShowThenHideIsInitial | src/store/slices/toastSlice.ts:9-25 | show followed by hide is the initial state |
| LegacyExpenseSlice.RequestResetsMessages | src/store/expenseSlice.ts:44-48 | every request raises loading, clears error and success, and touches neither list |
| LegacyExpenseSlice.ListsAreIndependent | src/store/expenseSlice.ts:49-184 | expense actions never change groups, group actions never change expenses, and the rest change neither |
| LegacyExpenseSlice.FailureKeepsLists | src/store/expenseSlice.ts:54-58 | every failure stores its message, nulls success and keeps both lists |
| LegacyExpenseSlice.FetchReplacesList | src/store/expenseSlice.ts:49-53 | a fetch success replaces its list, sets its success message and leaves a stale error |
| LegacyExpenseSlice.AddAppends | src/store/expenseSlice.ts:66-70 | add appends to its list and sets 'Expense added successfully' (or the group message) |
| LegacyExpenseSlice.EditExpenseOnlyOnMatch | src/store/expenseSlice.ts:83-90 | edit replaces the first expense with the payload's id, and sets the success message only when one exists |
| LegacyExpenseSlice.EditGroupOnlyOnMatch | src/store/expenseSlice.ts:154-161 | the same for groups |
| LegacyExpenseSlice.DeleteExpenseRemovesAll | src/store/expenseSlice.ts:103-107 | delete removes every expense with the id, keeps the rest in order, and is idempotent |
| LegacyExpenseSlice.DeleteGroupRemovesAll | src/store/expenseSlice.ts:174-178 | the same for groups |
| LegacyExpenseSlice.ClearMessagesOnlyMessages | src/store/expenseSlice.ts:187-190 | clearMessages nulls error and success and nothing else |
| LegacyUserSlice.StartClearsError | src/store/userSlice.ts:20-23 | every start raises loading, clears the error and keeps the list |
| LegacyUserSlice.FailureKeepsUsers | src/store/userSlice.ts:28-31 | every failure stores its message, ends loading and keeps the list |
| LegacyUserSlice.SuccessKeepsError | src/store/userSlice.ts:24-66 | every success ends loading and leaves the error as it was |
| LegacyUserSlice.FetchReplacesList | src/store/userSlice.ts:24-27 | the fetched users replace the list and loading ends |
| LegacyUserSlice.AddAppends | src/store/userSlice.ts:36-39 | add appends at the end |
| LegacyUserSlice.EditReplacesFirstMatch | src/store/userSlice.ts:48-54 | edit replaces the first user with the payload's id; with no match only loading changes |
| LegacyUserSlice.DeleteRemovesAll | src/store/userSlice.ts:63-66 | delete removes every user with the id, keeps the rest in order, and is idempotent |
| LegacyAuthSlice.LoginSuccessKeepsError | src/store/authSlice.ts:30-35 | login success sets user and token, authenticates and ends loading, but leaves the error as it was |
| LegacyAuthSlice.LoginFailureKeepsSession | src/store/authSlice.ts:36-39 | login failure sets the error and ends loading without touching user, token or `isAuthenticated` |
| LegacyAuthSlice.LogoutClearsOnlySession | src/store/authSlice.ts:40-44 | logout nulls user and token and drops `isAuthenticated`; loading, error and the reset flag stay |
| LegacyAuthSlice.SetUserAuthenticates | src/store/authSlice.ts:45-48 | setUser sets the user and authenticates, keeping the token |
| LegacyAuthSlice.ErrorSettersOnlyError | src/store/authSlice.ts:49-54 | setError and clearError touch only the error |
| LegacyAuthSlice.ForgotPasswordFlag | src/store/authSlice.ts:57-69 | start drops the reset flag, success raises it, failure leaves it and stores its message |
| LegacySettingsSlice.FetchClearsMessages | src/store/settingsSlice.ts:26-30 | fetchSettings raises loading and clears error and success, keeping both maps |
| LegacySettingsSlice.FetchSuccessReplacesBoth | src/store/settingsSlice.ts:31-36 | fetch success replaces both visibility maps from the payload |
| LegacySettingsSlice.UpdatesReplaceOneMap | src/store/settingsSlice.ts:44-49 | each update replaces its own map only |
| LegacySettingsSlice.FailureKeepsMaps | src/store/settingsSlice.ts:37-58 | failures store the error, null success and keep both maps |
| LegacySettingsSlice.ClearMessagesOnlyMessages | src/store/settingsSlice.ts:61-64 | clearSettingsMessages nulls error and success only |
| LegacyToastSlice.ShowForgetsPrevious | src/store/toastSlice.ts:22-29 | showToast sets message and type from the payload and `visible`, whatever was there before |
| LegacyToastSlice.HideKeepsMessage | src/store/toastSlice.ts:30-32 | hideToast drops `visible` only; message and type stay |
| LegacyToastSlice.ActionsIdempotent | src/store/toastSlice.ts:22-32 | each action applied twice is applied once |
| LegacyToastSlice.ShowAfterHide | src/store/toastSlice.ts:22-29 | show after hide shows the new payload whatever the hidden toast said |
| CategorySaga.FetchCategoriesSaga | src/store/sagas/categorySaga.ts:21-28 | one call; puts the service's list, or one failure with `error.message`; never a refetch |
| CategorySaga.CreateCategorySaga | src/store/sagas/categorySaga.ts:31-39 | one call with the payload; success puts the created category then `fetchCategoriesRequest`; failure puts only the failure |
| CategorySaga.UpdateCategorySaga | src/store/sagas/categorySaga.ts:42-50 | calls the service with `categoryId` and `data`; success puts the category then a refetch; failure only the failure |
| CategorySaga.DeleteCategorySaga | src/store/sagas/categorySaga.ts:53-61 | success puts the requested id then a refetch; failure only the failure |
| CategorySaga.OnlyRequestsStartWorkers | src/store/sagas/categorySaga.ts:21-69 | exactly the four requests start a worker, and each worker makes one service call |
| CategorySaga.WorkerSettlesOnce | src/store/sagas/categorySaga.ts:21-69 | every worker settles once: a failure exactly when the call was rejected, followed by a refetch request exactly for successful writes |
| CategorySaga.FailedWorkerKeepsList | src/store/sagas/categorySaga.ts:36-38 | a rejected call leaves the list as it was and records an error |
| CategorySaga.WriteThenRefetchConverges | src/store/sagas/categorySaga.ts:53-61 | after a successful write and its refetch, the list equals the refetched list whatever the local patch did |
| GroupSaga.FetchGroupsSaga | src/store/sagas/groupSaga.ts:19-26 | one call; one success with the list or one failure |
| GroupSaga.CreateGroupSaga | src/store/sagas/groupSaga.ts:29-39 | success puts the group then `fetchGroupsRequest`; failure only the failure |
| GroupSaga.DeleteGroupSaga | src/store/sagas/groupSaga.ts:42-50 | success puts the requested id then a refetch; failure only the failure |
| GroupSaga.OnlyRequestsStartWorkers | src/store/sagas/groupSaga.ts:19-57 | exactly fetch, create and delete start a worker (update starts none); each makes one service call |
| GroupSaga.WorkerSettlesOnce | src/store/sagas/groupSaga.ts:19-57 | the fetch, create and delete workers settle once, with a refetch request exactly after a successful write |
| GroupSaga.FailedWorkerKeepsList | src/store/sagas/groupSaga.ts:29-39 | a rejected call leaves the list as it was and records an error |
| GroupSaga.WriteThenRefetchConverges | src/store/sagas/groupSaga.ts:42-50 | after a successful write and its refetch, the list equals the refetched list |
| GroupSaga.UpdateRequestStaysLoading | src/store/sagas/groupSaga.ts:53-57 | an update request has no worker and produces no follow-up action, so the slice stays loading |
| PaymentMethodSaga.FetchPaymentMethodsSaga | src/store/sagas/paymentMethodSaga.ts:19-26 | one call; one success with the list or one failure |
| PaymentMethodSaga.CreatePaymentMethodSaga | src/store/sagas/paymentMethodSaga.ts:29-37 | success puts the entry then `fetchPaymentMethodsRequest`; failure only the failure |
| PaymentMethodSaga.DeletePaymentMethodSaga | src/store/sagas/paymentMethodSaga.ts:40-48 | success puts the requested id then a refetch; failure only the failure |
| PaymentMethodSaga.OnlyRequestsStartWorkers | src/store/sagas/paymentMethodSaga.ts:19-55 | exactly fetch, create and delete start a worker (update starts none); each makes one service call |
| PaymentMethodSaga.WorkerSettlesOnce | src/store/sagas/paymentMethodSaga.ts:19-55 | the fetch, create and delete workers settle once, with a refetch request exactly after a successful write |
| PaymentMethodSaga.FailedWorkerKeepsList | src/store/sagas/paymentMethodSaga.ts:29-37 | a rejected call leaves the list as it was and records an error |
| PaymentMethodSaga.WriteThenRefetchConverges | src/store/sagas/paymentMethodSaga.ts:40-48 | after a successful write and its refetch, the list equals the refetched list |
| PaymentMethodSaga.UpdateRequestStaysLoading | src/store/sagas/paymentMethodSaga.ts:51-55 | an update request gets no worker, so the slice stays loading |
| ExpenseSaga.FetchExpensesSaga | src/store/sagas/expenseSaga.ts:19-28 | one call; one success carrying the service's page or one failure with `error.message`; never a refetch |
| ExpenseSaga.CreateExpenseSaga | src/store/sagas/expenseSaga.ts:31-39 | success puts the created expense then `fetchExpensesRequest`; failure only the failure |
| ExpenseSaga.UpdateExpenseSaga | src/store/sagas/expenseSaga.ts:42-50 | calls the service with `payload.expenseId` and `payload.data`; success puts the expense then a refetch |
| ExpenseSaga.DeleteExpenseSaga | src/store/sagas/expenseSaga.ts:53-61 | success puts the requested id then a refetch; failure only the failure |
| ExpenseSaga.OnlyRequestsStartWorkers | src/store/sagas/expenseSaga.ts:19-69 | exactly the four requests start a worker, and each worker makes one service call |
| ExpenseSaga.WorkerSettlesOnce | src/store/sagas/expenseSaga.ts:19-69 | every worker settles once: a failure exactly when the call was rejected, followed by a refetch request exactly for successful writes |
| ExpenseSaga.FailedWorkerKeepsList | src/store/sagas/expenseSaga.ts:36-38 | a rejected call leaves the page as it was and records an error |
| ExpenseSaga.WriteThenRefetchConverges | src/store/sagas/expenseSaga.ts:53-61 | after a successful write and its refetch, the slice holds exactly the refetched page |
| SettingsSaga.FetchSettingsSaga | src/store/sagas/settingsSaga.ts:13-20 | calls the service with the action's userId and puts one success or one failure; no refetch |
| SettingsSaga.SaveSettingsSaga | src/store/sagas/settingsSaga.ts:23-32 | success puts the submitted settings (not the reply) then `fetchSettingsRequest` for the same user; failure only the failure |
| SettingsSaga.WorkerSettlesOnce | src/store/sagas/settingsSaga.ts:13-38 | both workers settle once; the only other put is the refetch after a successful save |
| SettingsSaga.SaveThenRefetchConverges | src/store/sagas/settingsSaga.ts:23-32 | after a successful save and its refetch the slice holds what the server returned |
| SettingsSaga.FailedSaveKeepsSettings | src/store/sagas/settingsSaga.ts:29-31 | a failed save keeps the settings the slice had |
| UserSaga.FetchProfileSaga | src/store/sagas/userSaga.ts:19-26 | one call; one success, or one failure with the server message or 'Failed to fetch user profile.' |
| UserSaga.FetchProfileByUsernameSaga | src/store/sagas/userSaga.ts:29-36 | with a username: one call and one success or failure; without one (as the action is typed) no call and the default failure |
| UserSaga.UpdateProfileSaga | src/store/sagas/userSaga.ts:39-46 | forwards `payload.username` and `payload.data` and puts the profile the service returns |
| UserSaga.FetchUsersSaga | src/store/sagas/userSaga.ts:49-57 | forwards only `fields` to the service; one success or one failure |
| UserSaga.ProfileWorkerSettles | src/store/sagas/userSaga.ts:19-46 | each profile request and its single put bring loading down, set a non-empty error exactly when the worker failed, and leave the user list half alone |
| UserSaga.UsersWorkerSettles | src/store/sagas/userSaga.ts:49-57 | fetchUsers and its single put bring usersLoading down, set a non-empty usersError exactly when the call was rejected, and leave the profile half alone |
| UserSaga.ByUsernameWithoutPayloadAlwaysFails | src/store/sagas/userSaga.ts:29-36 | dispatched without a payload, fetchProfileByUsername makes no call and ends with the default error |
| AuthSaga.WarmUp | src/store/sagas/authSaga.ts:36-41 | six requests, none to the auth or toast slice |
| AuthSaga.LoginSaga | src/store/sagas/authSaga.ts:28-47 | one call with username and password; success puts loginSuccess then the six requests in order (settings and profile with `userProfile.id`); failure puts only loginFailure with the server message or 'Login failed. Please try again.' |
| AuthSaga.RegisterSaga | src/store/sagas/authSaga.ts:50-60 | success puts only registerSuccess; failure defaults to 'Registration failed. Please try again.' |
| AuthSaga.LogoutSaga | src/store/sagas/authSaga.ts:63-74 | success puts logoutSuccess('Logout successful'); failure only logoutFailure |
| AuthSaga.ForgotPasswordSaga | src/store/sagas/authSaga.ts:77-87 | success puts forgotPasswordSuccess; failure defaults to 'Failed to reset password.' |
| AuthSaga.WorkerSettlesOnce | src/store/sagas/authSaga.ts:28-96 | every watched request starts a worker that makes one call and settles the auth slice exactly once with its first put |
| AuthSaga.LoginWarmsEveryCache | src/store/sagas/authSaga.ts:33-41 | after a successful login run the session is signed in and every resource slice is loading, the toast untouched |
| AuthSaga.LoginFailureLoadsNothing | src/store/sagas/authSaga.ts:43-46 | a failed login changes no slice but auth |
| AuthSaga.LogoutKeepsOtherSlices | src/store/sagas/authSaga.ts:66-68 | a successful logout signs out with 'Logout successful' and leaves every other slice as it was |
| AuthSaga.FailedLogoutKeepsSession | src/store/sagas/authSaga.ts:70-72 | a rejected logout keeps the session signed in and records a non-empty message |
| AppStore.SessionEndKeepsOtherSlices | src/config/api.ts:34-36 | ending the session (logout, or 'Session expired' from the API client) signs out and changes no other slice |
| LegacyExpenseSagas.FetchExpensesSaga | src/store/expenseSagas.ts:32-43 | one call and exactly one put: a success carrying the service list on success; a failure with the Error's message or the worker's fixed message; no refetch |
| LegacyExpenseSagas.AddExpenseSaga | src/store/expenseSagas.ts:45-56 | one call and exactly one put: a success carrying the payload itself on success; a failure with the Error's message or the worker's fixed message; no refetch |
| LegacyExpenseSagas.EditExpenseSaga | src/store/expenseSagas.ts:58-69 | one call and exactly one put: a success carrying the payload itself on success; a failure with the Error's message or the worker's fixed message; no refetch |
| LegacyExpenseSagas.DeleteExpenseSaga | src/store/expenseSagas.ts:71-82 | one call and exactly one put: a success carrying the requested id on success; a failure with the Error's message or the worker's fixed message; no refetch |
| LegacyExpenseSagas.FetchGroupsSaga | src/store/expenseSagas.ts:85-96 | one call and exactly one put: a success carrying the service list on success; a failure with the Error's message or the worker's fixed message; no refetch |
| LegacyExpenseSagas.AddGroupSaga | src/store/expenseSagas.ts:98-109 | one call and exactly one put: a success carrying the payload itself on success; a failure with the Error's message or the worker's fixed message; no refetch |
| LegacyExpenseSagas.EditGroupSaga | src/store/expenseSagas.ts:111-122 | one call and exactly one put: a success carrying the payload itself on success; a failure with the Error's message or the worker's fixed message; no refetch |
| LegacyExpenseSagas.DeleteGroupSaga | src/store/expenseSagas.ts:124-136 | one call and exactly one put: a success carrying the requested id on success; a failure with the Error's message or the worker's fixed message; no refetch |
| LegacyExpenseSagas.WorkerPutsOne | src/store/expenseSagas.ts:32-151 | exactly the requests start a worker; each makes one call and puts one action, never a request, a failure exactly when the call threw |
| LegacyExpenseSagas.WriteSuccessEchoesPayload | src/store/expenseSagas.ts:45-136 | a write that goes through puts a success carrying the request's own payload (the expense, group or id), not anything read back |
| LegacyExpenseSagas.RunSettles | src/store/expenseSagas.ts:32-136 | a request and its worker's put end loading, with an error exactly when the call threw and both lists kept then |
| LegacyExpenseSagas.AddRunAppendsPayload | src/store/expenseSagas.ts:45-56 | a successful add run leaves the payload itself appended, with 'Expense added successfully' |
| LegacySettingsSagas.FetchSettingsSaga | src/store/settingsSagas.ts:15-28 | reads categories, then payment methods (skipped if the first throws), and puts one success holding both maps or one failure |
| LegacySettingsSagas.UpdateVisibleCategoriesSaga | src/store/settingsSagas.ts:31-42 | one write; puts updateSettingsSuccess, or the failure with the Error's message or the fixed message |
| LegacySettingsSagas.UpdateVisiblePaymentMethodsSaga | src/store/settingsSagas.ts:45-56 | the same for payment methods |
| LegacySettingsSagas.WorkersPutOne | src/store/settingsSagas.ts:15-56 | each worker puts exactly one action, as its last effect |
| LegacySettingsSagas.FetchRunStoresBothMaps | src/store/settingsSagas.ts:17-20 | a completed fetch stores exactly the two maps the service read |
| LegacySettingsSagas.FailedCategoriesUpdateKeepsNewMap | src/store/settingsSagas.ts:31-42 | a failed categories write does not undo the map the update action already stored, and shows the write's error beside it |
| LegacySettingsSagas.FailedPaymentMethodsUpdateKeepsNewMap | src/store/settingsSagas.ts:45-56 | a failed payment-methods write does not undo the map the update action already stored, and shows the write's error beside it |
| LegacyUserSagas.FetchUsersSaga | src/store/userSagas.ts:20-28 | puts its start before the call, then one success echoing the request or one failure with 'Failed to fetch users.' whatever was thrown |
| LegacyUserSagas.AddUserSaga | src/store/userSagas.ts:31-39 | puts its start before the call, then one success echoing the request or one failure with 'Failed to add user.' whatever was thrown |
| LegacyUserSagas.EditUserSaga | src/store/userSagas.ts:42-50 | puts its start before the call, then one success echoing the request or one failure with 'Failed to edit user.' whatever was thrown |
| LegacyUserSagas.DeleteUserSaga | src/store/userSagas.ts:53-61 | puts its start before the call, then one success echoing the request or one failure with 'Failed to delete user.' whatever was thrown |
| LegacyUserSagas.AddRunOutcome | src/store/userSagas.ts:31-39 | an add run appends the payload with no error, or keeps the list with the fixed message |
| LegacyUserSagas.DeleteRunOutcome | src/store/userSagas.ts:53-61 | a delete run leaves no user with the id, or keeps the list with the fixed message |
| LegacyUserSagas.FetchAndEditRunsSettle | src/store/userSagas.ts:20-50 | fetch and edit runs end not loading, with an error exactly when the call threw |
| LegacyAuthSagas.TokenOf | src/store/authSagas.ts:20 | `user.token || ''` |
| LegacyAuthSagas.LoginSaga | src/store/authSagas.ts:11-29 | lookup first; no user puts only loginFailure('Invalid credentials') and writes no token; a found user's token is written before loginSuccess; a throw puts 'Login failed. Please try again.' |
| LegacyAuthSagas.LogoutSaga | src/store/authSagas.ts:32-39 | removes the token, then puts logout(); a throw puts nothing |
| LegacyAuthSagas.ForgotPasswordSaga | src/store/authSagas.ts:42-54 | no call; puts forgotPasswordStart then forgotPasswordSuccess |
| LegacyAuthSagas.LoginRunOutcome | src/store/authSagas.ts:11-29 | a login run signs in with the stored token, or keeps the session with the matching message |
| LegacyAuthSagas.ForgotPasswordRunSucceeds | src/store/authSagas.ts:42-54 | the forgot-password run always ends with the reset flag raised and no error |
| LegacyAuthSagas.LogoutRetriggersItself | src/store/authSagas.ts:57-61 | as wired, the logout worker's own put has the type its watcher takes |
| LegacyAuthSagas.CorrectedWatchesOnlyLoginStart | src/store/authSagas.ts:57-61 | with a distinct logout request type, only loginStart among the slice's actions is watched |
| LegacyAuthSagas.ForgotPasswordWatcherNeverStarts | src/store/authSagas.ts:60 | as wired, 'auth/forgotPassword' is watched, yet no action of the slice has that type, so the worker never starts |
| LegacyAuthSagas.CorrectedWatchesOnlyRequests | src/store/authSagas.ts:57-61 | with request actions for logout and for a reset link, an action is watched exactly when it is loginStart or one of the two requests, and exactly those start a worker |
| LegacyAuthSagas.CorrectedRunsDoNotChain | src/store/authSagas.ts:57-61 | the logout request is watched and starts the worker that removes the token and puts logout() on success; no run of any worker puts an action whose type is watched |
| LegacyAuthSagas.CorrectedLogoutRunSignsOut | src/store/authSagas.ts:32-39 | a logout request whose token removal succeeds ends signed out with loading, error and the reset flag kept; a failed removal changes nothing |
| LegacyAuthSagas.CorrectedForgotPasswordRunSucceeds | src/store/authSagas.ts:42-61 | a forgot-password request is watched and its run ends with the reset flag raised, no error and the session kept |
| MultiSelect.ToggleItem | src/components/MultiSelect.tsx:38-51 | single select gives exactly [item]; multi select appends an unselected item at the end, and removes a selected one together with every entry with its id |
| MultiSelect.ToggleTwiceRestores | src/components/MultiSelect.tsx:44-47 | toggling an unselected item twice restores the selection |
| MultiSelect.ToggleKeepsOthers | src/components/MultiSelect.tsx:44-47 | toggling never changes whether an item with another id is selected |
| MultiSelect.ToggleFlipsItem | src/components/MultiSelect.tsx:44-47 | the toggled item is selected afterwards exactly when it was not before |
| MultiSelect.LowerChar | src/components/MultiSelect.tsx:59 | ASCII lower-casing of one character: letters shift by 32, everything else is kept |
| MultiSelect.Lower | src/components/MultiSelect.tsx:59 | same length, each character lower-cased |
| MultiSelect.LowerIdempotent | src/components/MultiSelect.tsx:59 | lower-casing twice is lower-casing once |
| MultiSelect.IncludesAt | src/components/MultiSelect.tsx:59 | `includes` holds exactly when some window of the string equals the term |
| MultiSelect.FilteredItems | src/components/MultiSelect.tsx:58-60 | exactly the items whose lower-cased name contains the lower-cased term |
| MultiSelect.FilteredItemsIsSubsequence | src/components/MultiSelect.tsx:58-60 | the filtered items keep their order, and an empty term keeps every item |
| MultiSelect.SearchIgnoresTermCase | src/components/MultiSelect.tsx:58-60 | a term and its lower-cased form find the same items |
| MultiSelect.SelectedOnTop | src/components/MultiSelect.tsx:62-64 | as many items as the filtered list |
| MultiSelect.SelectedOnTopIsPartition | src/components/MultiSelect.tsx:62-64 | a permutation of the filtered items: the selected ones first, then the unselected, each group in original order |
| MultiSelect.Names | src/components/MultiSelect.tsx:66 | the selected items' names, in order |
| MultiSelect.JoinPrefix | src/components/MultiSelect.tsx:68-70 | joining a prefix of the names gives a prefix of the joined text |
| MultiSelect.SliceEnd | src/components/MultiSelect.tsx:69 | the end `slice(0, end)` stops at: clamped to the length, counted from the back when negative |
| MultiSelect.DisplayNamesTruncates | src/components/MultiSelect.tsx:68-70 | at most maxDisplay names are all joined with ', '; beyond that the first maxDisplay joined plus '...', a prefix of the full join |
| MultiSelect.DefaultDisplayOfThree | src/components/MultiSelect.tsx:28 | a worked example of the default maxDisplay of 2: three names show as the first two and '...' |
| MultiSelect.EmptySelectionDisplay | src/components/MultiSelect.tsx:68-70 | an empty selection shows nothing for maxDisplay >= 0 and '...' for a negative one |
| MultiSelect.FieldLabel | src/components/MultiSelect.tsx:88 | never empty: the names, else a non-empty placeholder, else 'Select' |
| MultiSelect.LabelOfSelection | src/components/MultiSelect.tsx:88 | with nothing selected the field shows the placeholder or 'Select'; with names it shows them |
| CategorySlice.CategoryStore.FetchCategoriesRequest | src/store/slices/categorySlice.ts:20-22 | `fetchCategoriesRequest` as in-place field assignments; the new state is `CategorySlice.Reduce` of the old state and the `FetchCategoriesRequest` action |
| CategorySlice.CategoryStore.FetchCategoriesSuccess | src/store/slices/categorySlice.ts:23-26 | `fetchCategoriesSuccess` as in-place field assignments; the new state is `CategorySlice.Reduce` of the old state and the `FetchCategoriesSuccess` action |
| CategorySlice.CategoryStore.FetchCategoriesFailure | src/store/slices/categorySlice.ts:27-30 | `fetchCategoriesFailure` as in-place field assignments; the new state is `CategorySlice.Reduce` of the old state and the `FetchCategoriesFailure` action |
| CategorySlice.CategoryStore.CreateCategoryRequest | src/store/slices/categorySlice.ts:32-34 | `createCategoryRequest` as in-place field assignments; the new state is `CategorySlice.Reduce` of the old state and the `CreateCategoryRequest` action |
| CategorySlice.CategoryStore.CreateCategorySuccess | src/store/slices/categorySlice.ts:35-38 | `createCategorySuccess` as in-place field assignments; the new state is `CategorySlice.Reduce` of the old state and the `CreateCategorySuccess` action |
| CategorySlice.CategoryStore.CreateCategoryFailure | src/store/slices/categorySlice.ts:39-42 | `createCategoryFailure` as in-place field assignments; the new state is `CategorySlice.Reduce` of the old state and the `CreateCategoryFailure` action |
| CategorySlice.CategoryStore.UpdateCategoryRequest | src/store/slices/categorySlice.ts:44-46 | `updateCategoryRequest` as in-place field assignments; the new state is `CategorySlice.Reduce` of the old state and the `UpdateCategoryRequest` action |
| CategorySlice.CategoryStore.UpdateCategorySuccess | src/store/slices/categorySlice.ts:47-53 | `updateCategorySuccess` as in-place field assignments; the new state is `CategorySlice.Reduce` of the old state and the `UpdateCategorySuccess` action |
| CategorySlice.CategoryStore.UpdateCategoryFailure | src/store/slices/categorySlice.ts:54-57 | `updateCategoryFailure` as in-place field assignments; the new state is `CategorySlice.Reduce` of the old state and the `UpdateCategoryFailure` action |
| CategorySlice.CategoryStore.DeleteCategoryRequest | src/store/slices/categorySlice.ts:59-61 | `deleteCategoryRequest` as in-place field assignments; the new state is `CategorySlice.Reduce` of the old state and the `DeleteCategoryRequest` action |
| CategorySlice.CategoryStore.DeleteCategorySuccess | src/store/slices/categorySlice.ts:62-65 | `deleteCategorySuccess` as in-place field assignments; the new state is `CategorySlice.Reduce` of the old state and the `DeleteCategorySuccess` action |
| CategorySlice.CategoryStore.DeleteCategoryFailure | src/store/slices/categorySlice.ts:66-69 | `deleteCategoryFailure` as in-place field assignments; the new state is `CategorySlice.Reduce` of the old state and the `DeleteCategoryFailure` action |
| GroupSlice.GroupStore.FetchGroupsRequest | src/store/slices/groupSlice.ts:22-24 | `fetchGroupsRequest` as in-place field assignments; the new state is `GroupSlice.Reduce` of the old state and the `FetchGroupsRequest` action |
| GroupSlice.GroupStore.FetchGroupsSuccess | src/store/slices/groupSlice.ts:25-29 | `fetchGroupsSuccess` as in-place field assignments; the new state is `GroupSlice.Reduce` of the old state and the `FetchGroupsSuccess` action |
| GroupSlice.GroupStore.FetchGroupsFailure | src/store/slices/groupSlice.ts:30-33 | `fetchGroupsFailure` as in-place field assignments; the new state is `GroupSlice.Reduce` of the old state and the `FetchGroupsFailure` action |
| GroupSlice.GroupStore.CreateGroupRequest | src/store/slices/groupSlice.ts:35-37 | `createGroupRequest` as in-place field assignments; the new state is `GroupSlice.Reduce` of the old state and the `CreateGroupRequest` action |
| GroupSlice.GroupStore.CreateGroupSuccess | src/store/slices/groupSlice.ts:38-41 | `createGroupSuccess` as in-place field assignments; the new state is `GroupSlice.Reduce` of the old state and the `CreateGroupSuccess` action |
| GroupSlice.GroupStore.CreateGroupFailure | src/store/slices/groupSlice.ts:42-45 | `createGroupFailure` as in-place field assignments; the new state is `GroupSlice.Reduce` of the old state and the `CreateGroupFailure` action |
| GroupSlice.GroupStore.UpdateGroupRequest | src/store/slices/groupSlice.ts:47-49 | `updateGroupRequest` as in-place field assignments; the new state is `GroupSlice.Reduce` of the old state and the `UpdateGroupRequest` action |
| GroupSlice.GroupStore.UpdateGroupSuccess | src/store/slices/groupSlice.ts:50-56 | `updateGroupSuccess` as in-place field assignments; the new state is `GroupSlice.Reduce` of the old state and the `UpdateGroupSuccess` action |
| GroupSlice.GroupStore.UpdateGroupFailure | src/store/slices/groupSlice.ts:57-60 | `updateGroupFailure` as in-place field assignments; the new state is `GroupSlice.Reduce` of the old state and the `UpdateGroupFailure` action |
| GroupSlice.GroupStore.DeleteGroupRequest | src/store/slices/groupSlice.ts:62-64 | `deleteGroupRequest` as in-place field assignments; the new state is `GroupSlice.Reduce` of the old state and the `DeleteGroupRequest` action |
| GroupSlice.GroupStore.DeleteGroupSuccess | src/store/slices/groupSlice.ts:65-68 | `deleteGroupSuccess` as in-place field assignments; the new state is `GroupSlice.Reduce` of the old state and the `DeleteGroupSuccess` action |
| GroupSlice.GroupStore.DeleteGroupFailure | src/store/slices/groupSlice.ts:69-72 | `deleteGroupFailure` as in-place field assignments; the new state is `GroupSlice.Reduce` of the old state and the `DeleteGroupFailure` action |
| PaymentMethodSlice.PaymentMethodStore.FetchPaymentMethodsRequest | src/store/slices/paymentMethodSlice.ts:20-22 | `fetchPaymentMethodsRequest` as in-place field assignments; the new state is `PaymentMethodSlice.Reduce` of the old state and the `FetchPaymentMethodsRequest` action |
| PaymentMethodSlice.PaymentMethodStore.FetchPaymentMethodsSuccess | src/store/slices/paymentMethodSlice.ts:23-26 | `fetchPaymentMethodsSuccess` as in-place field assignments; the new state is `PaymentMethodSlice.Reduce` of the old state and the `FetchPaymentMethodsSuccess` action |
| PaymentMethodSlice.PaymentMethodStore.FetchPaymentMethodsFailure | src/store/slices/paymentMethodSlice.ts:27-30 | `fetchPaymentMethodsFailure` as in-place field assignments; the new state is `PaymentMethodSlice.Reduce` of the old state and the `FetchPaymentMethodsFailure` action |
| PaymentMethodSlice.PaymentMethodStore.CreatePaymentMethodRequest | src/store/slices/paymentMethodSlice.ts:32-34 | `createPaymentMethodRequest` as in-place field assignments; the new state is `PaymentMethodSlice.Reduce` of the old state and the `CreatePaymentMethodRequest` action |
| PaymentMethodSlice.PaymentMethodStore.CreatePaymentMethodSuccess | src/store/slices/paymentMethodSlice.ts:35-38 | `createPaymentMethodSuccess` as in-place field assignments; the new state is `PaymentMethodSlice.Reduce` of the old state and the `CreatePaymentMethodSuccess` action |
| PaymentMethodSlice.PaymentMethodStore.CreatePaymentMethodFailure | src/store/slices/paymentMethodSlice.ts:39-42 | `createPaymentMethodFailure` as in-place field assignments; the new state is `PaymentMethodSlice.Reduce` of the old state and the `CreatePaymentMethodFailure` action |
| PaymentMethodSlice.PaymentMethodStore.UpdatePaymentMethodRequest | src/store/slices/paymentMethodSlice.ts:44-46 | `updatePaymentMethodRequest` as in-place field assignments; the new state is `PaymentMethodSlice.Reduce` of the old state and the `UpdatePaymentMethodRequest` action |
| PaymentMethodSlice.PaymentMethodStore.UpdatePaymentMethodSuccess | src/store/slices/paymentMethodSlice.ts:47-56 | `updatePaymentMethodSuccess` as in-place field assignments; the new state is `PaymentMethodSlice.Reduce` of the old state and the `UpdatePaymentMethodSuccess` action |
| PaymentMethodSlice.PaymentMethodStore.UpdatePaymentMethodFailure | src/store/slices/paymentMethodSlice.ts:57-60 | `updatePaymentMethodFailure` as in-place field assignments; the new state is `PaymentMethodSlice.Reduce` of the old state and the `UpdatePaymentMethodFailure` action |
| PaymentMethodSlice.PaymentMethodStore.DeletePaymentMethodRequest | src/store/slices/paymentMethodSlice.ts:62-64 | `deletePaymentMethodRequest` as in-place field assignments; the new state is `PaymentMethodSlice.Reduce` of the old state and the `DeletePaymentMethodRequest` action |
| PaymentMethodSlice.PaymentMethodStore.DeletePaymentMethodSuccess | src/store/slices/paymentMethodSlice.ts:65-68 | `deletePaymentMethodSuccess` as in-place field assignments; the new state is `PaymentMethodSlice.Reduce` of the old state and the `DeletePaymentMethodSuccess` action |
| PaymentMethodSlice.PaymentMethodStore.DeletePaymentMethodFailure | src/store/slices/paymentMethodSlice.ts:69-72 | `deletePaymentMethodFailure` as in-place field assignments; the new state is `PaymentMethodSlice.Reduce` of the old state and the `DeletePaymentMethodFailure` action |
| ExpenseSlice.ExpenseStore.FetchExpensesRequest | src/store/slices/expenseSlice.ts:21-24 | `fetchExpensesRequest` as in-place field assignments; the new state is `ExpenseSlice.Reduce` of the old state and the `FetchExpensesRequest` action |
| ExpenseSlice.ExpenseStore.FetchExpensesSuccess | src/store/slices/expenseSlice.ts:25-28 | `fetchExpensesSuccess` as in-place field assignments; the new state is `ExpenseSlice.Reduce` of the old state and the `FetchExpensesSuccess` action |
| ExpenseSlice.ExpenseStore.FetchExpensesFailure | src/store/slices/expenseSlice.ts:29-32 | `fetchExpensesFailure` as in-place field assignments; the new state is `ExpenseSlice.Reduce` of the old state and the `FetchExpensesFailure` action |
| ExpenseSlice.ExpenseStore.CreateExpenseRequest | src/store/slices/expenseSlice.ts:34-37 | `createExpenseRequest` as in-place field assignments; the new state is `ExpenseSlice.Reduce` of the old state and the `CreateExpenseRequest` action |
| ExpenseSlice.ExpenseStore.CreateExpenseSuccess | src/store/slices/expenseSlice.ts:38-41 | `createExpenseSuccess` as in-place field assignments; the new state is `ExpenseSlice.Reduce` of the old state and the `CreateExpenseSuccess` action |
| ExpenseSlice.ExpenseStore.CreateExpenseFailure | src/store/slices/expenseSlice.ts:42-45 | `createExpenseFailure` as in-place field assignments; the new state is `ExpenseSlice.Reduce` of the old state and the `CreateExpenseFailure` action |
| ExpenseSlice.ExpenseStore.UpdateExpenseRequest | src/store/slices/expenseSlice.ts:47-50 | `updateExpenseRequest` as in-place field assignments; the new state is `ExpenseSlice.Reduce` of the old state and the `UpdateExpenseRequest` action |
| ExpenseSlice.ExpenseStore.UpdateExpenseSuccess | src/store/slices/expenseSlice.ts:51-62 | `updateExpenseSuccess` as in-place field assignments; the new state is `ExpenseSlice.Reduce` of the old state and the `UpdateExpenseSuccess` action |
| ExpenseSlice.ExpenseStore.UpdateExpenseFailure | src/store/slices/expenseSlice.ts:63-66 | `updateExpenseFailure` as in-place field assignments; the new state is `ExpenseSlice.Reduce` of the old state and the `UpdateExpenseFailure` action |
| ExpenseSlice.ExpenseStore.DeleteExpenseRequest | src/store/slices/expenseSlice.ts:68-71 | `deleteExpenseRequest` as in-place field assignments; the new state is `ExpenseSlice.Reduce` of the old state and the `DeleteExpenseRequest` action |
| ExpenseSlice.ExpenseStore.DeleteExpenseSuccess | src/store/slices/expenseSlice.ts:72-79 | `deleteExpenseSuccess` as in-place field assignments; the new state is `ExpenseSlice.Reduce` of the old state and the `DeleteExpenseSuccess` action |
| ExpenseSlice.ExpenseStore.DeleteExpenseFailure | src/store/slices/expenseSlice.ts:80-83 | `deleteExpenseFailure` as in-place field assignments; the new state is `ExpenseSlice.Reduce` of the old state and the `DeleteExpenseFailure` action |
| AuthSlice.AuthStore.SetAuthStatus | src/store/slices/authSlice.ts:31-33 | `setAuthStatus` as in-place field assignments; the new state is `AuthSlice.Reduce` of the old state and the `SetAuthStatus` action |
| AuthSlice.AuthStore.LoginRequest | src/store/slices/authSlice.ts:35-38 | `loginRequest` as in-place field assignments; the new state is `AuthSlice.Reduce` of the old state and the `LoginRequest` action |
| AuthSlice.AuthStore.LoginSuccess | src/store/slices/authSlice.ts:39-51 | `loginSuccess` as in-place field assignments; the new state is `AuthSlice.Reduce` of the old state and the `LoginSuccess` action |
| AuthSlice.AuthStore.LoginFailure | src/store/slices/authSlice.ts:52-57 | `loginFailure` as in-place field assignments; the new state is `AuthSlice.Reduce` of the old state and the `LoginFailure` action |
| AuthSlice.AuthStore.RegisterRequest | src/store/slices/authSlice.ts:60-63 | `registerRequest` as in-place field assignments; the new state is `AuthSlice.Reduce` of the old state and the `RegisterRequest` action |
| AuthSlice.AuthStore.RegisterSuccess | src/store/slices/authSlice.ts:64-70 | `registerSuccess` as in-place field assignments; the new state is `AuthSlice.Reduce` of the old state and the `RegisterSuccess` action |
| AuthSlice.AuthStore.RegisterFailure | src/store/slices/authSlice.ts:71-75 | `registerFailure` as in-place field assignments; the new state is `AuthSlice.Reduce` of the old state and the `RegisterFailure` action |
| AuthSlice.AuthStore.LogoutRequest | src/store/slices/authSlice.ts:78-81 | `logoutRequest` as in-place field assignments; the new state is `AuthSlice.Reduce` of the old state and the `LogoutRequest` action |
| AuthSlice.AuthStore.LogoutSuccess | src/store/slices/authSlice.ts:82-92 | `logoutSuccess` as in-place field assignments; the new state is `AuthSlice.Reduce` of the old state and the `LogoutSuccess` action |
| AuthSlice.AuthStore.LogoutFailure | src/store/slices/authSlice.ts:93-96 | `logoutFailure` as in-place field assignments; the new state is `AuthSlice.Reduce` of the old state and the `LogoutFailure` action |
| AuthSlice.AuthStore.RefreshTokenRequest | src/store/slices/authSlice.ts:99-102 | `refreshTokenRequest` as in-place field assignments; the new state is `AuthSlice.Reduce` of the old state and the `RefreshTokenRequest` action |
| AuthSlice.AuthStore.RefreshTokenSuccess | src/store/slices/authSlice.ts:103-110 | `refreshTokenSuccess` as in-place field assignments; the new state is `AuthSlice.Reduce` of the old state and the `RefreshTokenSuccess` action |
| AuthSlice.AuthStore.RefreshTokenFailure | src/store/slices/authSlice.ts:111-114 | `refreshTokenFailure` as in-place field assignments; the new state is `AuthSlice.Reduce` of the old state and the `RefreshTokenFailure` action |
| AuthSlice.AuthStore.ForgotPasswordRequest | src/store/slices/authSlice.ts:117-120 | `forgotPasswordRequest` as in-place field assignments; the new state is `AuthSlice.Reduce` of the old state and the `ForgotPasswordRequest` action |
| AuthSlice.AuthStore.ForgotPasswordSuccess | src/store/slices/authSlice.ts:121-125 | `forgotPasswordSuccess` as in-place field assignments; the new state is `AuthSlice.Reduce` of the old state and the `ForgotPasswordSuccess` action |
| AuthSlice.AuthStore.ForgotPasswordFailure | src/store/slices/authSlice.ts:126-130 | `forgotPasswordFailure` as in-place field assignments; the new state is `AuthSlice.Reduce` of the old state and the `ForgotPasswordFailure` action |
| AuthSlice.AuthStore.ClearError | src/store/slices/authSlice.ts:131-133 | `clearError` as in-place field assignments; the new state is `AuthSlice.Reduce` of the old state and the `ClearError` action |
| UserSlice.UserStore.FetchProfileRequest | src/store/slices/userSlice.ts:28-31 | `fetchProfileRequest` as in-place field assignments; the new state is `UserSlice.Reduce` of the old state and the `FetchProfileRequest` action |
| UserSlice.UserStore.FetchProfileSuccess | src/store/slices/userSlice.ts:32-36 | `fetchProfileSuccess` as in-place field assignments; the new state is `UserSlice.Reduce` of the old state and the `FetchProfileSuccess` action |
| UserSlice.UserStore.FetchProfileFailure | src/store/slices/userSlice.ts:37-40 | `fetchProfileFailure` as in-place field assignments; the new state is `UserSlice.Reduce` of the old state and the `FetchProfileFailure` action |
| UserSlice.UserStore.FetchProfileByUsernameRequest | src/store/slices/userSlice.ts:43-46 | `fetchProfileByUsernameRequest` as in-place field assignments; the new state is `UserSlice.Reduce` of the old state and the `FetchProfileByUsernameRequest` action |
| UserSlice.UserStore.FetchProfileByUsernameSuccess | src/store/slices/userSlice.ts:47-51 | `fetchProfileByUsernameSuccess` as in-place field assignments; the new state is `UserSlice.Reduce` of the old state and the `FetchProfileByUsernameSuccess` action |
| UserSlice.UserStore.FetchProfileByUsernameFailure | src/store/slices/userSlice.ts:52-55 | `fetchProfileByUsernameFailure` as in-place field assignments; the new state is `UserSlice.Reduce` of the old state and the `FetchProfileByUsernameFailure` action |
| UserSlice.UserStore.UpdateProfileRequest | src/store/slices/userSlice.ts:58-61 | `updateProfileRequest` as in-place field assignments; the new state is `UserSlice.Reduce` of the old state and the `UpdateProfileRequest` action |
| UserSlice.UserStore.UpdateProfileSuccess | src/store/slices/userSlice.ts:62-66 | `updateProfileSuccess` as in-place field assignments; the new state is `UserSlice.Reduce` of the old state and the `UpdateProfileSuccess` action |
| UserSlice.UserStore.UpdateProfileFailure | src/store/slices/userSlice.ts:67-70 | `updateProfileFailure` as in-place field assignments; the new state is `UserSlice.Reduce` of the old state and the `UpdateProfileFailure` action |
| UserSlice.UserStore.FetchUsersRequest | src/store/slices/userSlice.ts:73-76 | `fetchUsersRequest` as in-place field assignments; the new state is `UserSlice.Reduce` of the old state and the `FetchUsersRequest` action |
| UserSlice.UserStore.FetchUsersSuccess | src/store/slices/userSlice.ts:77-83 | `fetchUsersSuccess` as in-place field assignments; the new state is `UserSlice.Reduce` of the old state and the `FetchUsersSuccess` action |
| UserSlice.UserStore.FetchUsersFailure | src/store/slices/userSlice.ts:84-87 | `fetchUsersFailure` as in-place field assignments; the new state is `UserSlice.Reduce` of the old state and the `FetchUsersFailure` action |
| UserSlice.UserStore.FetchUsersWithFieldsRequest | src/store/slices/userSlice.ts:90-93 | `fetchUsersWithFieldsRequest` as in-place field assignments; the new state is `UserSlice.Reduce` of the old state and the `FetchUsersWithFieldsRequest` action |
| UserSlice.UserStore.FetchUsersWithFieldsSuccess | src/store/slices/userSlice.ts:94-98 | `fetchUsersWithFieldsSuccess` as in-place field assignments; the new state is `UserSlice.Reduce` of the old state and the `FetchUsersWithFieldsSuccess` action |
| UserSlice.UserStore.FetchUsersWithFieldsFailure | src/store/slices/userSlice.ts:99-102 | `fetchUsersWithFieldsFailure` as in-place field assignments; the new state is `UserSlice.Reduce` of the old state and the `FetchUsersWithFieldsFailure` action |
| UserSlice.UserStore.ClearUserError | src/store/slices/userSlice.ts:105-108 | `clearUserError` as in-place field assignments; the new state is `UserSlice.Reduce` of the old state and the `ClearUserError` action |
| UserSlice.UserStore.ResetUserProfile | src/store/slices/userSlice.ts:111-115 | `resetUserProfile` as in-place field assignments; the new state is `UserSlice.Reduce` of the old state and the `ResetUserProfile` action |
| SettingsSlice.SettingsStore.FetchSettingsRequest | src/store/slices/settingsSlice.ts:20-22 | `fetchSettingsRequest` as in-place field assignments; the new state is `SettingsSlice.Reduce` of the old state and the `FetchSettingsRequest` action |
| SettingsSlice.SettingsStore.FetchSettingsSuccess | src/store/slices/settingsSlice.ts:23-27 | `fetchSettingsSuccess` as in-place field assignments; the new state is `SettingsSlice.Reduce` of the old state and the `FetchSettingsSuccess` action |
| SettingsSlice.SettingsStore.FetchSettingsFailure | src/store/slices/settingsSlice.ts:28-31 | `fetchSettingsFailure` as in-place field assignments; the new state is `SettingsSlice.Reduce` of the old state and the `FetchSettingsFailure` action |
| SettingsSlice.SettingsStore.SaveSettingsRequest | src/store/slices/settingsSlice.ts:32-34 | `saveSettingsRequest` as in-place field assignments; the new state is `SettingsSlice.Reduce` of the old state and the `SaveSettingsRequest` action |
| SettingsSlice.SettingsStore.SaveSettingsSuccess | src/store/slices/settingsSlice.ts:35-39 | `saveSettingsSuccess` as in-place field assignments; the new state is `SettingsSlice.Reduce` of the old state and the `SaveSettingsSuccess` action |
| SettingsSlice.SettingsStore.SaveSettingsFailure | src/store/slices/settingsSlice.ts:40-43 | `saveSettingsFailure` as in-place field assignments; the new state is `SettingsSlice.Reduce` of the old state and the `SaveSettingsFailure` action |
| ToastSlice.ToastStore.ShowToast | src/store/slices/toastSlice.ts:17-22 | `showToast` as in-place field assignments; the new state is `ToastSlice.Reduce` of the old state and the `ShowToast` action |
| ToastSlice.ToastStore.HideToast | src/store/slices/toastSlice.ts:23-25 | `hideToast` as in-place field assignments; the new state is `ToastSlice.Reduce` of the old state and the `HideToast` action |
| LegacyExpenseSlice.ExpensesStore.FetchExpenses | src/store/expenseSlice.ts:44-48 | `fetchExpenses` as in-place field assignments; the new state is `LegacyExpenseSlice.Reduce` of the old state and the `FetchExpenses` action |
| LegacyExpenseSlice.ExpensesStore.FetchExpensesSuccess | src/store/expenseSlice.ts:49-53 | `fetchExpensesSuccess` as in-place field assignments; the new state is `LegacyExpenseSlice.Reduce` of the old state and the `FetchExpensesSuccess` action |
| LegacyExpenseSlice.ExpensesStore.FetchExpensesFailure | src/store/expenseSlice.ts:54-58 | `fetchExpensesFailure` as in-place field assignments; the new state is `LegacyExpenseSlice.Reduce` of the old state and the `FetchExpensesFailure` action |
| LegacyExpenseSlice.ExpensesStore.AddExpense | src/store/expenseSlice.ts:61-65 | `addExpense` as in-place field assignments; the new state is `LegacyExpenseSlice.Reduce` of the old state and the `AddExpense` action |
| LegacyExpenseSlice.ExpensesStore.AddExpenseSuccess | src/store/expenseSlice.ts:66-70 | `addExpenseSuccess` as in-place field assignments; the new state is `LegacyExpenseSlice.Reduce` of the old state and the `AddExpenseSuccess` action |
| LegacyExpenseSlice.ExpensesStore.AddExpenseFailure | src/store/expenseSlice.ts:71-75 | `addExpenseFailure` as in-place field assignments; the new state is `LegacyExpenseSlice.Reduce` of the old state and the `AddExpenseFailure` action |
| LegacyExpenseSlice.ExpensesStore.EditExpense | src/store/expenseSlice.ts:78-82 | `editExpense` as in-place field assignments; the new state is `LegacyExpenseSlice.Reduce` of the old state and the `EditExpense` action |
| LegacyExpenseSlice.ExpensesStore.EditExpenseSuccess | src/store/expenseSlice.ts:83-90 | `editExpenseSuccess` as in-place field assignments; the new state is `LegacyExpenseSlice.Reduce` of the old state and the `EditExpenseSuccess` action |
| LegacyExpenseSlice.ExpensesStore.EditExpenseFailure | src/store/expenseSlice.ts:91-95 | `editExpenseFailure` as in-place field assignments; the new state is `LegacyExpenseSlice.Reduce` of the old state and the `EditExpenseFailure` action |
| LegacyExpenseSlice.ExpensesStore.DeleteExpense | src/store/expenseSlice.ts:98-102 | `deleteExpense` as in-place field assignments; the new state is `LegacyExpenseSlice.Reduce` of the old state and the `DeleteExpense` action |
| LegacyExpenseSlice.ExpensesStore.DeleteExpenseSuccess | src/store/expenseSlice.ts:103-107 | `deleteExpenseSuccess` as in-place field assignments; the new state is `LegacyExpenseSlice.Reduce` of the old state and the `DeleteExpenseSuccess` action |
| LegacyExpenseSlice.ExpensesStore.DeleteExpenseFailure | src/store/expenseSlice.ts:108-112 | `deleteExpenseFailure` as in-place field assignments; the new state is `LegacyExpenseSlice.Reduce` of the old state and the `DeleteExpenseFailure` action |
| LegacyExpenseSlice.ExpensesStore.FetchGroups | src/store/expenseSlice.ts:115-119 | `fetchGroups` as in-place field assignments; the new state is `LegacyExpenseSlice.Reduce` of the old state and the `FetchGroups` action |
| LegacyExpenseSlice.ExpensesStore.FetchGroupsSuccess | src/store/expenseSlice.ts:120-124 | `fetchGroupsSuccess` as in-place field assignments; the new state is `LegacyExpenseSlice.Reduce` of the old state and the `FetchGroupsSuccess` action |
| LegacyExpenseSlice.ExpensesStore.FetchGroupsFailure | src/store/expenseSlice.ts:125-129 | `fetchGroupsFailure` as in-place field assignments; the new state is `LegacyExpenseSlice.Reduce` of the old state and the `FetchGroupsFailure` action |
| LegacyExpenseSlice.ExpensesStore.AddGroup | src/store/expenseSlice.ts:132-136 | `addGroup` as in-place field assignments; the new state is `LegacyExpenseSlice.Reduce` of the old state and the `AddGroup` action |
| LegacyExpenseSlice.ExpensesStore.AddGroupSuccess | src/store/expenseSlice.ts:137-141 | `addGroupSuccess` as in-place field assignments; the new state is `LegacyExpenseSlice.Reduce` of the old state and the `AddGroupSuccess` action |
| LegacyExpenseSlice.ExpensesStore.AddGroupFailure | src/store/expenseSlice.ts:142-146 | `addGroupFailure` as in-place field assignments; the new state is `LegacyExpenseSlice.Reduce` of the old state and the `AddGroupFailure` action |
| LegacyExpenseSlice.ExpensesStore.EditGroup | src/store/expenseSlice.ts:149-153 | `editGroup` as in-place field assignments; the new state is `LegacyExpenseSlice.Reduce` of the old state and the `EditGroup` action |
| LegacyExpenseSlice.ExpensesStore.EditGroupSuccess | src/store/expenseSlice.ts:154-161 | `editGroupSuccess` as in-place field assignments; the new state is `LegacyExpenseSlice.Reduce` of the old state and the `EditGroupSuccess` action |
| LegacyExpenseSlice.ExpensesStore.EditGroupFailure | src/store/expenseSlice.ts:162-166 | `editGroupFailure` as in-place field assignments; the new state is `LegacyExpenseSlice.Reduce` of the old state and the `EditGroupFailure` action |
| LegacyExpenseSlice.ExpensesStore.DeleteGroup | src/store/expenseSlice.ts:169-173 | `deleteGroup` as in-place field assignments; the new state is `LegacyExpenseSlice.Reduce` of the old state and the `DeleteGroup` action |
| LegacyExpenseSlice.ExpensesStore.DeleteGroupSuccess | src/store/expenseSlice.ts:174-178 | `deleteGroupSuccess` as in-place field assignments; the new state is `LegacyExpenseSlice.Reduce` of the old state and the `DeleteGroupSuccess` action |
| LegacyExpenseSlice.ExpensesStore.DeleteGroupFailure | src/store/expenseSlice.ts:179-184 | `deleteGroupFailure` as in-place field assignments; the new state is `LegacyExpenseSlice.Reduce` of the old state and the `DeleteGroupFailure` action |
| LegacyExpenseSlice.ExpensesStore.ClearMessages | src/store/expenseSlice.ts:187-190 | `clearMessages` as in-place field assignments; the new state is `LegacyExpenseSlice.Reduce` of the old state and the `ClearMessages` action |
| LegacyUserSlice.UsersStore.FetchUsersStart | src/store/userSlice.ts:20-23 | `fetchUsersStart` as in-place field assignments; the new state is `LegacyUserSlice.Reduce` of the old state and the `FetchUsersStart` action |
| LegacyUserSlice.UsersStore.FetchUsersSuccess | src/store/userSlice.ts:24-27 | `fetchUsersSuccess` as in-place field assignments; the new state is `LegacyUserSlice.Reduce` of the old state and the `FetchUsersSuccess` action |
| LegacyUserSlice.UsersStore.FetchUsersFailure | src/store/userSlice.ts:28-31 | `fetchUsersFailure` as in-place field assignments; the new state is `LegacyUserSlice.Reduce` of the old state and the `FetchUsersFailure` action |
| LegacyUserSlice.UsersStore.AddUserStart | src/store/userSlice.ts:32-35 | `addUserStart` as in-place field assignments; the new state is `LegacyUserSlice.Reduce` of the old state and the `AddUserStart` action |
| LegacyUserSlice.UsersStore.AddUserSuccess | src/store/userSlice.ts:36-39 | `addUserSuccess` as in-place field assignments; the new state is `LegacyUserSlice.Reduce` of the old state and the `AddUserSuccess` action |
| LegacyUserSlice.UsersStore.AddUserFailure | src/store/userSlice.ts:40-43 | `addUserFailure` as in-place field assignments; the new state is `LegacyUserSlice.Reduce` of the old state and the `AddUserFailure` action |
| LegacyUserSlice.UsersStore.EditUserStart | src/store/userSlice.ts:44-47 | `editUserStart` as in-place field assignments; the new state is `LegacyUserSlice.Reduce` of the old state and the `EditUserStart` action |
| LegacyUserSlice.UsersStore.EditUserSuccess | src/store/userSlice.ts:48-54 | `editUserSuccess` as in-place field assignments; the new state is `LegacyUserSlice.Reduce` of the old state and the `EditUserSuccess` action |
| LegacyUserSlice.UsersStore.EditUserFailure | src/store/userSlice.ts:55-58 | `editUserFailure` as in-place field assignments; the new state is `LegacyUserSlice.Reduce` of the old state and the `EditUserFailure` action |
| LegacyUserSlice.UsersStore.DeleteUserStart | src/store/userSlice.ts:59-62 | `deleteUserStart` as in-place field assignments; the new state is `LegacyUserSlice.Reduce` of the old state and the `DeleteUserStart` action |
| LegacyUserSlice.UsersStore.DeleteUserSuccess | src/store/userSlice.ts:63-66 | `deleteUserSuccess` as in-place field assignments; the new state is `LegacyUserSlice.Reduce` of the old state and the `DeleteUserSuccess` action |
| LegacyUserSlice.UsersStore.DeleteUserFailure | src/store/userSlice.ts:67-70 | `deleteUserFailure` as in-place field assignments; the new state is `LegacyUserSlice.Reduce` of the old state and the `DeleteUserFailure` action |
| LegacyUserSlice.UsersStore.ClearError | src/store/userSlice.ts:71-73 | `clearError` as in-place field assignments; the new state is `LegacyUserSlice.Reduce` of the old state and the `ClearError` action |
| LegacyAuthSlice.AuthStore.LoginStart | src/store/authSlice.ts:26-29 | `loginStart` as in-place field assignments; the new state is `LegacyAuthSlice.Reduce` of the old state and the `LoginStart` action |
| LegacyAuthSlice.AuthStore.LoginSuccess | src/store/authSlice.ts:30-35 | `loginSuccess` as in-place field assignments; the new state is `LegacyAuthSlice.Reduce` of the old state and the `LoginSuccess` action |
| LegacyAuthSlice.AuthStore.LoginFailure | src/store/authSlice.ts:36-39 | `loginFailure` as in-place field assignments; the new state is `LegacyAuthSlice.Reduce` of the old state and the `LoginFailure` action |
| LegacyAuthSlice.AuthStore.Logout | src/store/authSlice.ts:40-44 | `logout` as in-place field assignments; the new state is `LegacyAuthSlice.Reduce` of the old state and the `Logout` action |
| LegacyAuthSlice.AuthStore.SetUser | src/store/authSlice.ts:45-48 | `setUser` as in-place field assignments; the new state is `LegacyAuthSlice.Reduce` of the old state and the `SetUser` action |
| LegacyAuthSlice.AuthStore.SetError | src/store/authSlice.ts:49-51 | `setError` as in-place field assignments; the new state is `LegacyAuthSlice.Reduce` of the old state and the `SetError` action |
| LegacyAuthSlice.AuthStore.ClearError | src/store/authSlice.ts:52-54 | `clearError` as in-place field assignments; the new state is `LegacyAuthSlice.Reduce` of the old state and the `ClearError` action |
| LegacyAuthSlice.AuthStore.ForgotPasswordStart | src/store/authSlice.ts:57-61 | `forgotPasswordStart` as in-place field assignments; the new state is `LegacyAuthSlice.Reduce` of the old state and the `ForgotPasswordStart` action |
| LegacyAuthSlice.AuthStore.ForgotPasswordSuccess | src/store/authSlice.ts:62-65 | `forgotPasswordSuccess` as in-place field assignments; the new state is `LegacyAuthSlice.Reduce` of the old state and the `ForgotPasswordSuccess` action |
| LegacyAuthSlice.AuthStore.ForgotPasswordFailure | src/store/authSlice.ts:66-69 | `forgotPasswordFailure` as in-place field assignments; the new state is `LegacyAuthSlice.Reduce` of the old state and the `ForgotPasswordFailure` action |
| LegacySettingsSlice.SettingsStore.FetchSettings | src/store/settingsSlice.ts:26-30 | `fetchSettings` as in-place field assignments; the new state is `LegacySettingsSlice.Reduce` of the old state and the `FetchSettings` action |
| LegacySettingsSlice.SettingsStore.FetchSettingsSuccess | src/store/settingsSlice.ts:31-36 | `fetchSettingsSuccess` as in-place field assignments; the new state is `LegacySettingsSlice.Reduce` of the old state and the `FetchSettingsSuccess` action |
| LegacySettingsSlice.SettingsStore.FetchSettingsFailure | src/store/settingsSlice.ts:37-41 | `fetchSettingsFailure` as in-place field assignments; the new state is `LegacySettingsSlice.Reduce` of the old state and the `FetchSettingsFailure` action |
| LegacySettingsSlice.SettingsStore.UpdateVisibleCategories | src/store/settingsSlice.ts:44-46 | `updateVisibleCategories` as in-place field assignments; the new state is `LegacySettingsSlice.Reduce` of the old state and the `UpdateVisibleCategories` action |
| LegacySettingsSlice.SettingsStore.UpdateVisiblePaymentMethods | src/store/settingsSlice.ts:47-49 | `updateVisiblePaymentMethods` as in-place field assignments; the new state is `LegacySettingsSlice.Reduce` of the old state and the `UpdateVisiblePaymentMethods` action |
| LegacySettingsSlice.SettingsStore.UpdateSettingsSuccess | src/store/settingsSlice.ts:50-53 | `updateSettingsSuccess` as in-place field assignments; the new state is `LegacySettingsSlice.Reduce` of the old state and the `UpdateSettingsSuccess` action |
| LegacySettingsSlice.SettingsStore.UpdateSettingsFailure | src/store/settingsSlice.ts:54-58 | `updateSettingsFailure` as in-place field assignments; the new state is `LegacySettingsSlice.Reduce` of the old state and the `UpdateSettingsFailure` action |
| LegacySettingsSlice.SettingsStore.ClearSettingsMessages | src/store/settingsSlice.ts:61-64 | `clearSettingsMessages` as in-place field assignments; the new state is `LegacySettingsSlice.Reduce` of the old state and the `ClearSettingsMessages` action |
| LegacyToastSlice.ToastStore.ShowToast | src/store/toastSlice.ts:22-29 | `showToast` as in-place field assignments; the new state is `LegacyToastSlice.Reduce` of the old state and the `ShowToast` action |
| LegacyToastSlice.ToastStore.HideToast | src/store/toastSlice.ts:30-32 | `hideToast` as in-place field assignments; the new state is `LegacyToastSlice.Reduce` of the old state and the `HideToast` action |

## Left out

- Navigation: the `navigate(...)` calls after a successful login or logout (src/store/sagas/authSaga.ts:42, :69) have no effect on the store and are not modelled.
- Concurrency: the `takeLatest`/`takeEvery` cancellation and overlapping runs. The model runs one worker at a time. Watchers are modelled only as the map from a request to the worker it starts (`Handle`).
- Device storage and HTTP: the services under src/services and src/store/services, and the AsyncStorage helpers in src/utils/storage.ts, are not part of this model. Each call is an oracle outcome. The legacy `setData`/`removeData` helpers catch and log their own errors, so in practice the `Err` outcomes of the legacy token write and removal cannot occur. Likewise the legacy ExpenseService (src/services/expenseService.ts:62, :75, :89, :101, :123, :136, :150, :162) catches every error and resolves `[]` or nothing, so the `Err` outcomes of the eight legacy expense and group workers cannot occur either. The model still accepts all of them as inputs.
- The writes to device storage inside the newer auth reducers (src/store/slices/authSlice.ts:49-50, :91): only the state they leave is modelled.
- The legacy user watchers (src/store/userSagas.ts:64-69) listen for 'user/fetchUsers', 'user/addUser', 'user/editUser' and 'user/deleteUser'. No action of the `user` slice has these types, so these workers never start in the running app. They are modelled as functions of their inputs, without a watcher.
- The legacy forgot-password worker's service call is commented out in the source (src/store/authSagas.ts:46-47). The model makes no call, and its failure branch is unreachable.
- The legacy forgot-password watcher (src/store/authSagas.ts:60) takes 'auth/forgotPassword', but the slice's actions are forgotPasswordStart, forgotPasswordSuccess and forgotPasswordFailure (src/store/authSlice.ts:57-69). The root saga starts this watcher (src/store/store.ts:42), yet its worker never starts in the running app. The corrected wiring pairs that type with a request action that carries the email.
- AuthSlice.RefreshTokenNeedsUser: `refreshTokenSuccess` spreads the whole AuthData over the user, which adds `userProfile` and `token` keys. The User record cannot hold those keys. The model keeps the user's modelled fields unchanged and replaces only the token.
- MultiSelect.Lower: lower-cases ASCII letters only. Unicode case mapping is not modelled.
- The optional `data` property of a MultiSelect item is carried by the component but never read, so it is not part of the record. `maxDisplay` is an integer; fractional values are not modelled.
- Store wiring: `configureStore`, the middleware and `all([...])` are not modelled. The file that would combine the newer slices into one reducer is not part of this model. `AppStore` is the composition those slices imply.
- The screens, their form validation, the floating-point totals and date arithmetic of the dashboard, the theme and the navigation files are UI and are not modelled.

## Findings

| source | as written | input that shows it | evidently intended | confidence | as-written member | corrected member |
|---|---|---|---|---|---|---|
| src/store/authSagas.ts:57-61 | the logout worker is started by `takeLatest('auth/logout', ...)`, and on success it puts `logout()`, whose type is 'auth/logout' (src/store/authSagas.ts:35) | dispatch `logout()` while the token removal resolves: every run puts an action that starts the next run | logout is started by a request type of its own ('auth/logoutRequest'), whose run removes the token and signs out once, and no run starts another | not executed | LegacyAuthSagas.LogoutRetriggersItself | LegacyAuthSagas.CorrectedRunsDoNotChain |
| src/store/authSagas.ts:60 | the forgot-password watcher takes 'auth/forgotPassword', a type no action of the auth slice has (src/store/authSlice.ts:57-69) | dispatch `forgotPasswordStart()`: its type is 'auth/forgotPasswordStart', so no worker starts and no reset is ever reported | a request action of type 'auth/forgotPassword' carries the email and starts the worker, whose run raises the reset flag | not executed | LegacyAuthSagas.ForgotPasswordWatcherNeverStarts | LegacyAuthSagas.CorrectedForgotPasswordRunSucceeds |
