# scholar-fee-nexus: a Dafny model of the fee dashboard's logic

scholar-fee-nexus is a school fee-management dashboard. Signed-in staff of an organization see
lists of students, fee components and payments. They also see collection reports grouped by class,
by fee component and by month. This project models the parts of the dashboard that compute
something, and proves what they promise:

- **The authentication slice** (`auth_slice.dfy`). The store holds six fields: user, session,
  organization, loading flag, organization-setup flag and error.
  - `AuthStore` is a class whose methods are the case reducers. Each method updates its fields
    in place, with its whole new state stated.
  - `Reduce` is the same reducer as a function on values, so that sequences of actions can be
    reasoned about.
  - `InitializeSettlement` is the initialise thunk's outcome. The session query and the
    organization lookup are its parameters.
- **The application shell** (`app.dfy`). `SelectScreen` picks which of four screens is shown.
  `OnAuthStateChange` is the listener's dispatch rule.
- **The collection reports** (`analytics.dfy`).
  - `Accumulate`/`AddToTally` is the `reduce` into a key-to-total object, as a loop over a map.
  - `OwnKeys` is the order in which `Object.entries` lists that object's keys: array-index keys
    first, ascending, then the other keys in creation order. This follows ECMA-262, section
    10.1.11.1, OrdinaryOwnPropertyKeys.
  - `Grouped` is the reference definition every report is proved equal to.
- **The database rows** (`records.dfy`), with the payment method as an enumeration.
- **The three screens that keep their lists in memory**: payments (`payment_tracking.dfy`),
  students (`student_management.dfy`) and fee components (`fee_component_management.dfy`).
  Each is a class holding the list, the form and the dialog flag. The payment and student
  screens also hold a search term. Their list functions are `AddPayment`, `AddStudent`,
  `AddComponent`, `DeleteComponent` and the filters.
- **Shared pieces**: `text.dfy` (ASCII lower-casing, `includes`, `parseInt` and decimal
  rendering) and `seqs.dfy` (`filter`, subsequences, ids numbered 1..n). `wrappers.dfy` holds
  `Option` and `Result`.

The ledgers number a new entry `length + 1`. For payments and students nothing else ever removes
an entry, and the ids stay exactly 1..n (the `...KeepIdsNumbered` lemmas). The fee-component
screen also deletes. There, the same numbering hands out an id that is still in use (see
Findings). The model keeps the code's numbering (`AddComponent`, `HandleAddFeeComponent`). It
also gives the corrected numbering (`AddComponentWithFreshId`), with uniqueness proved under
every sequence of additions and deletions.

## Model

| member | source | states |
|---|---|---|
| Records.MethodName | src/lib/supabase.ts:57 | Definition only: the four strings of the `payment_method` union, one per value of the `PaymentMethod` enumeration. No contract is stated about it. |
| Text.LowerIsCaseFolding | src/components/PaymentTracking.tsx:84-86 | Lower-casing keeps the length, leaves no upper-case ASCII letter, and lower-casing twice is lower-casing once. |
| Text.Lower | src/components/PaymentTracking.tsx:84-86 | Definition of `toLowerCase` on the ASCII letters. Its properties (length kept, no upper-case letter left, idempotent) are the contract of `Text.LowerIsCaseFolding`. |
| Text.Contains | src/components/PaymentTracking.tsx:84-86 | Definition of `includes`: the needle occurs at some position of the haystack. `Text.ContainsTrivial` states that the empty string and the haystack itself are always included. |
| Text.ContainsTrivial | src/components/StudentManagement.tsx:73-75 | Every string includes the empty string and includes itself. |
| Text.ParseInt | src/components/PaymentTracking.tsx:66 | `parseInt` gives a number exactly for a run of digits with an optional sign. An unsigned result is non-negative and a `-` result is non-positive. Every other string gives no number. |
| Text.ParseIntOfDecimal | src/components/FeeComponentManagement.tsx:39 | Parsing the decimal rendering of any integer gives that integer back. |
| Seqs.Filter | src/components/FeeComponentManagement.tsx:48 | `filter` keeps the elements that pass the test, in their order. Each kept element occurs as often as in the input, and no other element occurs. |
| AuthSlice.InitializeSettlement | src/store/authSlice.ts:26-51 | A failed session query rejects with its message. Otherwise the payload has the session and that session's user. `needsOrgSetup` holds iff there is a user and the organization lookup failed. The organization is the lookup's result when there is a user and it succeeded, and is null otherwise. |
| AuthSlice.SettlementKeepsUserOfSession | src/store/authSlice.ts:42-47 | Every fulfilled payload of the initialise thunk has, as its user, the user of its own session. |
| AuthSlice.Reduce | src/store/authSlice.ts:66-117 | Definition of the slice's reducer, one case per reducer and settled thunk. `AuthSlice.AuthStore.Dispatch` proves that each in-place case method leaves exactly this state; `AuthSlice.UserMatchesSessionAlongTrace` and the `App` lemmas state what sequences of it do. |
| AuthSlice.ReduceAll | src/store/authSlice.ts:66-120 | Definition of dispatching actions one after the other. `AuthSlice.ReduceAllCons` unfolds it one action at a time; `AuthSlice.UserMatchesSessionAlongTrace`, `App.SessionEventShowsLoading`, `App.SignOutEventShowsAuth` and `App.InitializeDecidesScreen` state its results. |
| AuthSlice.ReduceAllCons | src/store/authSlice.ts:66-120 | Dispatching one action and then a sequence is dispatching the sequence with that action in front. |
| AuthSlice.UserMatchesSessionAlongTrace | src/store/authSlice.ts:66-117 | Assume the store's user is its session's user, and that every fulfilled payload in a sequence of actions agrees with its own session. Then the store's user is still its session's user after the whole sequence. |
| AuthSlice.AuthStore.constructor | src/store/authSlice.ts:14-21 | The store starts loading, does not need setup, and has no user, session, organization or error. |
| AuthSlice.AuthStore.SetSession | src/store/authSlice.ts:70-73 | The session becomes the payload, and the user becomes the payload's user (none if absent). The other four fields are unchanged. |
| AuthSlice.AuthStore.SetOrganization | src/store/authSlice.ts:74-77 | The organization becomes the payload and setup is no longer needed. Nothing else changes. |
| AuthSlice.AuthStore.SetNeedsOrgSetup | src/store/authSlice.ts:78-80 | Only the setup flag changes, to the payload. |
| AuthSlice.AuthStore.ClearAuth | src/store/authSlice.ts:81-87 | User, session, organization and error are cleared and the setup flag is false. `loading` is unchanged. |
| AuthSlice.AuthStore.SetError | src/store/authSlice.ts:88-90 | Only the error changes, to the payload. |
| AuthSlice.AuthStore.InitializePending | src/store/authSlice.ts:94-97 | Loading becomes true and the error is cleared. Nothing else changes. |
| AuthSlice.AuthStore.InitializeFulfilled | src/store/authSlice.ts:98-104 | Loading stops, and user, session, organization and setup flag are copied from the payload. The error is kept. |
| AuthSlice.AuthStore.InitializeRejected | src/store/authSlice.ts:105-108 | Loading stops and the error becomes the message. User, session, organization and setup flag are unchanged. |
| AuthSlice.AuthStore.CreateOrganizationFulfilled | src/store/authSlice.ts:109-112 | The created organization is stored and setup is no longer needed. Nothing else changes. |
| AuthSlice.AuthStore.CreateOrganizationRejected | src/store/authSlice.ts:113-115 | Only the error changes, to the message. |
| AuthSlice.AuthStore.Dispatch | src/store/authSlice.ts:66-120 | Dispatching an action leaves the store in the state the slice's reducer gives for it. |
| App.SelectScreen | src/App.tsx:60-94 | Exactly one screen is shown. Loading shows whenever loading. Sign-in shows iff not loading and there is no user, whatever the setup flag. Organization setup shows iff not loading, with a user, and setup needed; it gets the user's email, or "" without one. The routes show iff not loading, with a user, and no setup needed. |
| App.OnAuthStateChange | src/App.tsx:34-40 | Definition of the listener's dispatches: with a session, `setSession` and then the start of the initialise thunk; without one, `clearAuth` alone. `App.SessionEventShowsLoading` and `App.SignOutEventShowsAuth` state the store and screen each leads to. |
| App.SessionEventShowsLoading | src/App.tsx:34-37 | A session event stores the session and its user, and the initialise thunk then starts: loading again, with no error. Organization and setup flag are kept, and the loading screen shows. |
| App.SignOutEventShowsAuth | src/App.tsx:38-40 | A sign-out event clears user, session, organization, error and setup flag, and keeps `loading`. The sign-in screen shows unless the store was still loading. |
| App.InitializeDecidesScreen | src/store/authSlice.ts:94-108 | Once the initialise thunk has started and settled, loading has stopped. On success there is no error. The screen is sign-in without a user, organization setup when the lookup failed, and the routes when it succeeded. A failed session query only stops loading and stores the error. |
| App.StartsLoading | src/store/authSlice.ts:14-21 | The initial state shows the loading screen, and its user is its session's user. |
| Analytics.FirstAppearance | src/lib/supabase.ts:263-267 | The keys in their order of creation. Each key occurs once, and a key is listed iff some payment carries it. |
| Analytics.FirstAppearanceOrder | src/lib/supabase.ts:263-267 | Keys are created in increasing order of the position of their first payment. |
| Analytics.SortByIndex | src/lib/supabase.ts:271 | Sorting array-index keys by value keeps every key and the length, gives ascending order, and keeps a list without repetitions free of them. |
| Analytics.OwnKeys | src/lib/supabase.ts:271 | `Object.entries` lists exactly the object's keys, none twice. The array-index keys come first in ascending value, then the other keys in creation order. |
| Analytics.OwnKeysOfOrdinaryKeys | src/lib/supabase.ts:271 | Without array-index keys, `Object.entries` keeps the creation order. |
| Analytics.AddToTally | src/lib/supabase.ts:263-268 | One step of the `reduce`. If the accumulator held the first appearances and sums of the rows seen so far, it holds them for those rows plus the new one. |
| Analytics.Accumulate | src/lib/supabase.ts:262-269 | After the fold, the accumulator's keys are the payments' keys in first-appearance order. It holds a total exactly for the keys some payment carries, and each total is the sum of that key's amounts. |
| Analytics.GroupedKeys | src/lib/supabase.ts:262-274 | The report has one row per key some payment carries and for no other key, none twice. Each row's total is the sum of that key's amounts, and the report is empty iff there are no payments. |
| Analytics.GroupedConservesAmounts | src/lib/supabase.ts:262-274 | The report's totals add up to the sum of all payment amounts. |
| Analytics.GroupedFollowsFirstAppearance | src/lib/supabase.ts:298-302 | When no key is an array index, the rows follow the order in which each key first occurs among the payments. |
| Analytics.GroupSum | src/lib/supabase.ts:262-274 | Folding and then listing the entries gives exactly the report `Grouped` describes. |
| Analytics.Entries | src/lib/supabase.ts:271-274 | Definition of `Object.entries` on the accumulator: one entry per key in `Analytics.OwnKeys` order, with that key's value. `Analytics.GroupSum` proves that, after the fold, this is exactly `Grouped`. |
| Analytics.ByClass | src/lib/supabase.ts:263 | Definition: each payment keyed by its student's class, with its amount. `Analytics.GetClasswiseCollection` states the report over it. |
| Analytics.ByComponent | src/lib/supabase.ts:290 | Definition: each payment keyed by its fee component's name, with its amount. `Analytics.GetFeeComponentCollection` states the report over it. |
| Analytics.ByMonth | src/lib/supabase.ts:315 | Definition: each payment keyed by the month `monthOf` gives its date, with its amount. `Analytics.GetMonthlyTrend` states the report over it. |
| Analytics.GetClasswiseCollection | src/lib/supabase.ts:262-274 | One row per class, in report order, each with the summed amounts of the payments of students in that class. |
| Analytics.GetFeeComponentCollection | src/lib/supabase.ts:289-302 | One row per component name, in report order, each with the summed amounts for that component. `value` equals `amount` in every row. |
| Analytics.GetMonthlyTrend | src/lib/supabase.ts:314-327 | One row per month key, in report order, each with the summed amounts of that month and the target 500000. |
| Payments.WithField | src/components/PaymentTracking.tsx:58-60 | Setting a form field gives it the new value and keeps every other field. |
| Payments.EmptyFormIsBlank | src/components/PaymentTracking.tsx:70-79 | Every field of the reset form is the empty string. |
| Payments.NewPayment | src/components/PaymentTracking.tsx:63-68 | Definition of the recorded payment: id n + 1, the form's fields, the parsed amount and status Completed. `Payments.PaymentTracking.HandleAddPayment` states each field of it. |
| Payments.AddPayment | src/components/PaymentTracking.tsx:69 | Definition of appending the new payment. `Payments.AddPaymentKeepsIdsNumbered` and `Payments.AddPaymentsKeepIdsNumbered` state what it does to the ids, and `Payments.PaymentTracking.HandleAddPayment` that it keeps the earlier payments in order. |
| Payments.AddPaymentKeepsIdsNumbered | src/components/PaymentTracking.tsx:64-69 | Recording a payment into a list with ids 1..n gives a list with ids 1..n+1. |
| Payments.AddPaymentsKeepIdsNumbered | src/components/PaymentTracking.tsx:64-69 | From ids 1..n, any sequence of k recordings gives n+k payments with ids exactly 1..n+k, all different. |
| Payments.SeedThenAddsKeepIdsNumbered | src/components/PaymentTracking.tsx:14-39 | From the two seed payments, ids stay exactly 1..n and unique under any recordings. |
| Payments.FilteredPayments | src/components/PaymentTracking.tsx:83-87 | The listed payments are a subsequence of all payments. A payment is listed iff the lower-cased term occurs in its lower-cased student name, roll number or fee component, and each listed payment occurs as often as in the list. |
| Payments.EmptySearchListsAllPayments | src/components/PaymentTracking.tsx:83-87 | An empty search lists every payment, in order. |
| Payments.RollNumberFindsPayment | src/components/PaymentTracking.tsx:85 | Searching for a payment's own roll number lists that payment. |
| Payments.PaymentTracking.constructor | src/components/PaymentTracking.tsx:14-52 | The screen starts with the two seed payments (ids 1..2), an empty form, the dialog closed and an empty search. |
| Payments.PaymentTracking.HandleInputChange | src/components/PaymentTracking.tsx:58-60 | Only the one form field changes, to the value. |
| Payments.PaymentTracking.HandleAddPayment | src/components/PaymentTracking.tsx:62-81 | Exactly one payment is appended and the earlier ones are unchanged and in order. It has id old length + 1, the parsed amount, status Completed, and the other fields copied from the form. The form is then blank, the dialog closed and the search kept, and ids 1..n become 1..n+1. |
| Payments.PaymentTracking.SetSearchTerm | src/components/PaymentTracking.tsx:215 | Only the search term changes. |
| Students.WithField | src/components/StudentManagement.tsx:47-49 | Setting a form field gives it the new value and keeps every other field. |
| Students.EmptyFormIsBlank | src/components/StudentManagement.tsx:57-68 | Every field of the reset form is the empty string. |
| Students.NewStudent | src/components/StudentManagement.tsx:52-55 | Definition of the added student: id n + 1 and the whole form. `Students.NewStudentKeepsForm` states that it carries every field. |
| Students.AddStudent | src/components/StudentManagement.tsx:56 | Definition of appending the new student. `Students.AddStudentKeepsIdsNumbered` and `Students.AddStudentsKeepIdsNumbered` state what it does to the ids, and `Students.StudentManagement.HandleAddStudent` that it keeps the earlier students in order. |
| Students.NewStudentKeepsForm | src/components/StudentManagement.tsx:52-55 | The new student has id n + 1 and carries every field of the form: reading the form back from it gives the form. |
| Students.AddStudentKeepsIdsNumbered | src/components/StudentManagement.tsx:53-56 | Adding a student to a list with ids 1..n gives a list with ids 1..n+1. |
| Students.AddStudentsKeepIdsNumbered | src/components/StudentManagement.tsx:53-56 | From ids 1..n, any sequence of k additions gives n+k students with ids exactly 1..n+k, all different. |
| Students.SeedThenAddsKeepIdsNumbered | src/components/StudentManagement.tsx:13-27 | From the one seed student, ids stay exactly 1..n and unique under any additions. |
| Students.FilteredStudents | src/components/StudentManagement.tsx:72-76 | The listed students are a subsequence of all students. A student is listed iff the lower-cased term occurs in their lower-cased name, roll number or class, and each listed student occurs as often as in the list. |
| Students.EmptySearchListsAllStudents | src/components/StudentManagement.tsx:72-76 | An empty search lists every student, in order. |
| Students.RollNumberFindsStudent | src/components/StudentManagement.tsx:74 | Searching for a student's own roll number lists that student. |
| Students.StudentManagement.constructor | src/components/StudentManagement.tsx:13-42 | The screen starts with the seed student (id 1), an empty form, the dialog closed and an empty search. |
| Students.StudentManagement.HandleInputChange | src/components/StudentManagement.tsx:47-49 | Only the one form field changes, to the value. |
| Students.StudentManagement.HandleAddStudent | src/components/StudentManagement.tsx:51-70 | Exactly one student is appended and the earlier ones are unchanged. It has id old length + 1 and the whole form. The form is then blank, the dialog closed, and ids 1..n become 1..n+1. |
| Students.StudentManagement.SetSearchTerm | src/components/StudentManagement.tsx:216 | Only the search term changes. |
| FeeComponents.WithField | src/components/FeeComponentManagement.tsx:30-32 | Setting a form field gives it the new value and keeps every other field. |
| FeeComponents.EmptyFormIsBlank | src/components/FeeComponentManagement.tsx:43 | Every field of the reset form is the empty string. |
| FeeComponents.NewComponent | src/components/FeeComponentManagement.tsx:35-41 | Definition of a component built from the form under a given id, with the parsed amount. `FeeComponents.FeeComponentManagement.HandleAddFeeComponent` states each field of it. |
| FeeComponents.AddComponent | src/components/FeeComponentManagement.tsx:36-42 | Definition of the addition as written: append with id length + 1. `FeeComponents.AsWrittenAddReusesId` shows it reusing an id after a deletion; `FeeComponents.NextFreeIdOfNumbered` and `FeeComponents.AddComponentWithFreshId` show it is correct while the ids are 1..n. |
| FeeComponents.DeleteComponent | src/components/FeeComponentManagement.tsx:48 | Deleting an id removes every component with that id and keeps every other one, in order and as often as before. |
| FeeComponents.DeleteAbsentIdKeepsAll | src/components/FeeComponentManagement.tsx:48 | Deleting an id no component has leaves the list unchanged. |
| FeeComponents.DeleteIdempotent | src/components/FeeComponentManagement.tsx:48 | Deleting the same id twice is deleting it once. |
| FeeComponents.DeletesCommute | src/components/FeeComponentManagement.tsx:48 | Two deletions give the same list in either order. |
| FeeComponents.DeleteKeepsIdsUnique | src/components/FeeComponentManagement.tsx:48 | Deleting keeps unique ids unique. |
| FeeComponents.IdsUniqueByMembership | src/components/FeeComponentManagement.tsx:48 | No two components share an id iff no component is repeated and components with equal ids are equal. |
| FeeComponents.NextFreeIdOfNumbered | src/components/FeeComponentManagement.tsx:36 | While the ids are 1..n, one past the largest id is n + 1, the id the code picks. |
| FeeComponents.AddComponentWithFreshId | src/components/FeeComponentManagement.tsx:34-42 | The corrected addition appends the form's component under one past the largest id, so its id differs from every listed id, and the earlier components are kept in order. While the ids are 1..n it is exactly the code's addition. |
| FeeComponents.AddWithFreshIdKeepsIdsUnique | src/components/FeeComponentManagement.tsx:36 | The corrected addition keeps unique ids unique. |
| FeeComponents.FreshEditsKeepIdsUnique | src/components/FeeComponentManagement.tsx:34-49 | With the corrected addition, any sequence of additions and deletions keeps unique ids unique. |
| FeeComponents.SeedFreshEditsKeepIdsUnique | src/components/FeeComponentManagement.tsx:13-18 | From the four seed components, the ids stay unique under any edits with the corrected addition. |
| FeeComponents.AsWrittenDeleteThenAdd | src/components/FeeComponentManagement.tsx:36-48 | As written, deleting id 2 from components numbered 1..4 and then adding one gives the new component id 4. |
| FeeComponents.FreshDeleteThenAdd | src/components/FeeComponentManagement.tsx:36-48 | With the corrected addition, the same two edits give the new component id 5. |
| FeeComponents.AsWrittenAddReusesId | src/components/FeeComponentManagement.tsx:13-48 | As written, from the seed list, deleting 2 and then adding gives two components with id 4. The ids are no longer unique, and deleting 4 afterwards removes both. |
| FeeComponents.FreshIdAfterDelete | src/components/FeeComponentManagement.tsx:13-48 | With the corrected addition, the same edits give the new component id 5 and the ids stay unique. |
| FeeComponents.FeeComponentManagement.constructor | src/components/FeeComponentManagement.tsx:13-26 | The screen starts with the four seed components, numbered 1..4 and so unique, an empty form and the dialog closed. |
| FeeComponents.FeeComponentManagement.HandleInputChange | src/components/FeeComponentManagement.tsx:30-32 | Only the one form field changes, to the value. |
| FeeComponents.FeeComponentManagement.HandleAddFeeComponent | src/components/FeeComponentManagement.tsx:34-45 | As written: exactly one component is appended, the earlier ones unchanged. It has id old length + 1, the form's name, class and description, and the parsed amount. The form is then blank and the dialog closed. Ids 1..n become 1..n+1, so they stay unique only while nothing was deleted. |
| FeeComponents.FeeComponentManagement.HandleAddFeeComponentWithFreshId | src/components/FeeComponentManagement.tsx:34-45 | Corrected: exactly one component is appended, the earlier ones unchanged, with id one past the largest listed id, the form's name, class and description, and the parsed amount. The form is then blank, the dialog closed, and unique ids stay unique. |
| FeeComponents.FeeComponentManagement.HandleDelete | src/components/FeeComponentManagement.tsx:47-49 | The list becomes the list without that id, and no component with the id remains. Form and dialog are unchanged, and unique ids stay unique. |

## Left out

- Every call to the hosted database and authentication service is network I/O. The session query and the organization lookup become the parameters of `InitializeSettlement`. The report queries become the row lists given to the report methods.
- The creation of an organization (src/store/authSlice.ts:54-64) is a database call. Only the two actions it settles with are modelled.
- The timing of the asynchronous thunks and of the session-change subscription is concurrency. The slice is modelled as a sequential transition system, and dispatching the initialise thunk is its pending action followed, at some later point, by its settlement.
- The organization-setup and sign-in callbacks of the shell (src/App.tsx:48-58) only dispatch the thunks above, and are not modelled separately.
- The short month name of a payment date (src/lib/supabase.ts:315) depends on the locale. It is the parameter `monthOf` of `ByMonth` and `GetMonthlyTrend`.
- A payment whose student or fee component join is missing makes the report code fail on a null dereference. The model's rows always carry a key.
- Amounts are JavaScript numbers, that is, floating point. The model uses integers, and `NaN` from `parseInt` is `None`.
- Text.ParseInt: the whole string must be an optional sign and digits. JavaScript's `parseInt` also skips leading white space, stops at the first non-digit ("12abc" gives 12), and reads a `0x` prefix as hexadecimal; none of that is modelled.
- Text.Lower: only the ASCII letters A-Z are lower-cased; full Unicode case mapping is not modelled.
- Analytics.Accumulate: keys that name a member every plain object inherits (such as `constructor` or `toString`) are treated like any other key. In JavaScript, `!acc[key]` finds the inherited member truthy, so the total is not reset to 0, and `+=` then appends the amount to the member's text.
- Analytics.GroupedFollowsFirstAppearance: the first-appearance order is proved only for keys that are not array indices. `Analytics.OwnKeys` states the general order.
- Payments.PaymentTracking.HandleInputChange: the field is one of the form's eight names, which is what the screen's inputs pass. The code accepts any string and would add an extra property. An `id` key, for example, would override the new payment's id, because the spread of the form follows `id` (src/components/PaymentTracking.tsx:63-65). Two of the eight (roll number and class) have no input on the payment form, so in the running screen they stay empty.
- Students.StudentManagement.HandleInputChange: the field is one of the form's ten names. Under any other name, an `id` key, for example, would override the new student's id through the spread.
- FeeComponents.FeeComponentManagement.HandleInputChange: the field is one of the form's four names.
- Opening and closing the dialogs, JSX rendering, amount formatting and status badge colours are presentation. Only the dialog closing after an addition is modelled.
- src/lib/excelExport.ts, src/components/Auth.tsx, src/components/OrganizationSetup.tsx, src/pages/Dashboard.tsx, src/components/ReportsAnalytics.tsx and src/store/store.ts are not part of this model.
- Split payments across several fee components, receipt-number generation, a rule requiring a transaction reference for non-cash payments, and editing or deleting payments do not occur in the payment screen's code. That code (src/components/PaymentTracking.tsx:62-81) records one form as one payment, so none of them is modelled.

## Findings

| source | as written | input that shows it | evidently intended | confidence | as-written member | corrected member |
|---|---|---|---|---|---|---|
| src/components/FeeComponentManagement.tsx:36 | a new component's id is the list's length plus one | the seed components with ids 1, 2, 3, 4: delete 2, then add one; the new component gets id 4, which the Library Fee still has, and deleting 4 afterwards removes both | every fee component has its own id, so that a delete removes only the row it was pressed on | not executed | FeeComponents.AsWrittenAddReusesId | FeeComponents.FreshEditsKeepIdsUnique |
