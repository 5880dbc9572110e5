# Daily rental ledger, rental form and login form

A Dafny model of the logic of a small rental and billing tracker. The user signs in, logs rentals
(name, amount, hours or a date range, paid or pending), and sees the day's running revenue. The
application is a React layer over Firebase. The model covers the three places where it holds
sequential logic of its own:

- **The ledger** (`src/context/AppContext.jsx`). The shared state keeps the day's rental records
  (`customers`) and a running `totalRevenue`. `AppContext.Store` is a class with those fields and
  the current user, the calendar toggle, the shared date range and the list of days with data. Its
  methods are the snapshot listeners and `addCustomer`, `updateCustomer` and `deleteCustomer`.
  Each Firestore or Auth call is a parameter that says how the call came out: `stored` is the new
  document id or `None`, and `writeOk`, `profileOk` and `deleteOk` say whether the write succeeded.
  The list edits (`find`, `filter`, `map` with a merge) and the paid-revenue fold are functions in
  module `Ledger`. The day arithmetic (`calculateDaysBetween` and the sorted list of days with data)
  is in module `Calendar`.
- **The rental form** (`src/components/customer/CustomerModal.jsx`), module `RentalForm`. It holds
  the field-by-field validator, the payload handed to `addCustomer`, and the submit step that
  resets the form after success.
- **The login form** (`src/components/auth/Login.jsx`), module `LoginForm`. Its validator is an
  ordered chain of checks, and the first failing check gives the form error. The submit step calls
  sign-in or registration only for a valid form.

The central invariant is `Store.Valid()`: `totalRevenue == PaidSum(customers)` and the record ids
are distinct. `PaidSum` is the sum of `amount` over the records whose status is `"paid"`.

Each operation below is one step on the current state. The claims hold when no listener push
arrives between a write and the local update that follows it. The echo cases at the end of this
section are the exceptions.

- A snapshot re-establishes the invariant from scratch.
- `AddCustomer` always keeps the revenue half, and keeps the id half when the store's id is new.
- `DeleteCustomer` keeps the invariant.
- `UpdateCustomer` keeps it exactly when the revenue delta it applies equals the updated record's
  change of paid amount. `Ledger.KeepsRevenue` names the patches for which that always holds: a
  `"pending"` patch, a `"paid"` patch whose amount is absent or non-zero, and a patch that sets
  neither status nor amount.

The code adjusts the revenue only for status patches (`AppContext.jsx:344`). For a paid patch it
takes the patch amount only when that amount is truthy (`AppContext.jsx:347`), so a patch amount
of `0` falls back to the old amount. Outside `KeepsRevenue` the invariant can break: the lemmas
`Ledger.StatuslessPatchBreaksRevenue`, `Ledger.OtherStatusPatchBreaksRevenue` and
`Ledger.ZeroAmountPatchBreaksRevenue` give a concrete record and patch for each kind of patch where
the total and the records drift apart. These kinds are a patch without a status, a status other than
paid or pending such as `"cancelled"`, and a paid patch with amount 0. The only caller in the
application, the status toggle of the list view, sends a status-only patch. So, when no listener
push arrives between the write and the local update, the invariant holds for every update the
application makes (`Ledger.ToggleMovesAmount`).

`AddCustomer` does not check whether the rentals listener has already delivered the new
document. If the listener reports the local write before `addDoc` resolves, which is Firestore's
usual behaviour but is not visible in this code, then `OnRentalsSnapshot([rec])` followed by
`AddCustomer` with `rec`'s id leaves the record in the list twice (`AppContext.jsx:266`) and its
amount in the total twice (`AppContext.jsx:270`). The total still equals the paid sum of the list,
but the ids are no longer distinct; `Ledger.EchoedAddDuplicates` gives a concrete case.

The same early push breaks the revenue half for the other two writes. `deleteCustomer` and
`updateCustomer` read the list captured when they were called, and adjust the total from its
latest value.

- After a delete, the push has already dropped the record and recomputed the total. The record is
  still in the captured list, so `AppContext.jsx:396-397` subtract its amount a second time. The
  total ends at the paid sum minus that amount (`Ledger.EchoedDeleteUndercounts`).
- After a toggle to paid, the push has already merged the new status and recomputed the total.
  `AppContext.jsx:348` then adds the delta again, so the amount is counted twice
  (`Ledger.EchoedToggleDoubleCounts`).

In each case the drift lasts until a later push recomputes the total.

What the code does not do (the model follows the code):

- Input validation happens in the form, not in `addCustomer`. `addCustomer` fails only without a
  user, on an unconvertible date range, or on a failed write.
- Pushes from a torn-down subscription are not dropped by a generation counter.
- The midnight archive is not de-duplicated.

## Model

| member | source | states |
|---|---|---|
| `Ledger.Find` | src/context/AppContext.jsx:303 | the lookup returns a record with the id exactly when one exists, and it is the first such record in the list |
| `Ledger.Remove` | src/context/AppContext.jsx:393 | the filtered list holds exactly the records whose id differs, and it is the list itself when no record has the id |
| `Ledger.RemoveAt` | src/context/AppContext.jsx:393 | with distinct ids, removing the record at position k leaves every other record, once each, in its original order |
| `Ledger.Merge` | src/context/AppContext.jsx:340 | the spread keeps id, creation time, user, date range and warning flag; each key present in the patch wins and each absent key keeps the record's value |
| `Ledger.ApplyPatch` | src/context/AppContext.jsx:339-341 | same length; every record with the id is merged with the patch and every other record is unchanged |
| `Ledger.PaidSumAppend` | src/context/AppContext.jsx:266-271 | appending a record raises the paid sum by its amount if it is paid and by nothing otherwise |
| `Ledger.PaidSumWithoutPaid` | src/context/AppContext.jsx:163-165 | records that are not paid contribute nothing: a list without paid records sums to 0 |
| `Ledger.PaidSumRemove` | src/context/AppContext.jsx:393-398 | with distinct ids, removing the record with the id removes exactly one record and lowers the paid sum by that record's paid amount |
| `Ledger.RemoveKeepsUniqueIds` | src/context/AppContext.jsx:393 | filtering keeps the ids distinct |
| `Ledger.PaidSumPatch` | src/context/AppContext.jsx:339-341 | with distinct ids, merging a patch changes the paid sum only by the merged record's change |
| `Ledger.ApplyPatchKeepsUniqueIds` | src/context/AppContext.jsx:339-341 | merging a patch keeps the ids distinct |
| `Ledger.NewPaidAmount` | src/context/AppContext.jsx:347 | 0 unless the patch sets status paid; then the merged record's paid amount when the patch amount is not 0, and the record's own amount when the patch amount is 0 |
| `Ledger.RevenueDelta` | src/context/AppContext.jsx:344-348 | 0 for a patch that does not set status paid or pending; for a `KeepsRevenue` patch, the merged record's paid amount minus the record's |
| `Ledger.TogglePatch` | src/components/customer/CustomerList.jsx:36-39 | a status-only patch that keeps the revenue exact; merging it changes only the status, and the result is paid exactly when the record was not |
| `Ledger.UpdateKeepsRevenue` | src/context/AppContext.jsx:339-349 | a revenue equal to the paid sum stays equal to it after an update exactly when the delta equals the record's change of paid amount, and so always for a `KeepsRevenue` patch |
| `Ledger.ToggleMovesAmount` | src/components/customer/CustomerList.jsx:33-39 | toggling a record's status moves its amount out of (paid) or into (otherwise) both the paid sum and the revenue delta |
| `Ledger.ZeroAmountPatchBreaksRevenue` | src/context/AppContext.jsx:347 | a paid patch with amount 0 adds the old amount 100 to the total while the paid sum of the records becomes 0 |
| `Ledger.StatuslessPatchBreaksRevenue` | src/context/AppContext.jsx:344 | a patch without status that changes a paid record's amount from 100 to 40 leaves the revenue delta at 0 |
| `Ledger.OtherStatusPatchBreaksRevenue` | src/context/AppContext.jsx:344 | a patch setting status `"cancelled"` on a paid record of 100 leaves the revenue delta at 0 while the records' paid sum drops to 0 |
| `Ledger.EchoedDeleteUndercounts` | src/context/AppContext.jsx:393-398 | with the deleted paid record of 100 already pushed away and the total recomputed to 0, the captured list still finds it, and subtracting its amount leaves -100 against a paid sum of 0 |
| `Ledger.EchoedToggleDoubleCounts` | src/context/AppContext.jsx:339-348 | with the toggled record already pushed as paid and the total recomputed to 100, re-merging changes nothing, but adding the toggle's delta gives 200 against a paid sum of 100 |
| `Ledger.EchoedAddDuplicates` | src/context/AppContext.jsx:266-271 | a paid record of 100 that the listener already delivered and `addCustomer` appends again sits in the list twice, with the ids no longer distinct and 200 counted |
| `Calendar.DaysBetween` | src/context/AppContext.jsx:286-295 | 0 when an endpoint is unset; otherwise at least 1, and one more than the least whole number of days covering the gap (the ceiling) |
| `Calendar.DayOf` | src/context/AppContext.jsx:198 | the day number d is the one whose day interval [d, d + 1) days contains the local instant |
| `Calendar.DaysBetweenSymmetric` | src/context/AppContext.jsx:291 | swapping start and end does not change the span |
| `Calendar.DaysBetweenSameInstant` | src/context/AppContext.jsx:294 | equal endpoints span 1 day |
| `Calendar.DaysBetweenWholeDays` | src/context/AppContext.jsx:287-294 | endpoints d whole days apart span d + 1 days; an unset endpoint spans 0 |
| `Calendar.SortDays` | src/context/AppContext.jsx:203 | the result is strictly increasing and holds exactly the days of the set |
| `Calendar.UniqueDates` | src/context/AppContext.jsx:192-203 | strictly increasing (sorted, no duplicates), and a day is listed exactly when some record with a `createdAt` falls on it |
| `Calendar.UniqueDatesCover` | src/context/AppContext.jsx:193-203 | the day of every record with a `createdAt` is in the list, and no day appears twice |
| `AppContext.SumPaid` | src/context/AppContext.jsx:163-165 | the left-to-right reduce yields the paid sum of the snapshot |
| `AppContext.NewRecord` | src/context/AppContext.jsx:235-266 | the stored record carries the payload's fields, the new id, the user, the current time and the warning flag, no phone, and its paid amount is the payload's when the status is paid |
| `AppContext.RangeConvertible` | src/context/AppContext.jsx:252-256 | the range converts exactly when it is absent or spans at least one day by `DaysBetween`, that is, both endpoints are set |
| `AppContext.Store.constructor` | src/context/AppContext.jsx:40-52 | no records, revenue 0, no user, hours mode, both dates at the current instant; the invariant holds |
| `AppContext.Store.OnAuthStateChanged` | src/context/AppContext.jsx:477-480 | the current user becomes the reported identity |
| `AppContext.Store.OnSessionChange` | src/context/AppContext.jsx:128-183 | without a user the records, the total and the dates list are cleared (the invariant then holds); with a user they are untouched |
| `AppContext.Store.OnRentalsSnapshot` | src/context/AppContext.jsx:153-168 | the records become the snapshot and the total equals its paid sum |
| `AppContext.Store.OnDatesSnapshot` | src/context/AppContext.jsx:192-203 | the dates list becomes the sorted, duplicate-free list of days of the records with a `createdAt` |
| `AppContext.Store.AddCustomer` | src/context/AppContext.jsx:213-283 | no user, an unconvertible date range or a failed write each fail with state unchanged; otherwise exactly one record is appended and the total rises by its amount iff it is paid; the invariant is kept |
| `AppContext.Store.UpdateCustomer` | src/context/AppContext.jsx:298-357 | an unknown id or a failed write fails with state unchanged; otherwise the patch is merged into the records with the id, the length and other records are kept, the total moves by the as-written delta for a status patch and not at all otherwise; from a consistent state, a successful update keeps the invariant exactly when that delta equals the record's change of paid amount, and always for a `KeepsRevenue` patch |
| `AppContext.Store.DeleteCustomer` | src/context/AppContext.jsx:360-405 | an unknown id or a failed delete fails with state unchanged; otherwise the records with the id are removed and the total drops by the amount iff the found record was paid; the invariant is kept and one record goes |
| `RentalForm.ParseNumber` | src/components/customer/CustomerModal.jsx:67 | a reading exists only for non-empty text, a digit string reads as its decimal value, and a negative reading needs a leading minus |
| `RentalForm.ParseNumberSigned` | src/components/customer/CustomerModal.jsx:82 | a leading minus negates the reading of digits and a leading plus keeps it |
| `RentalForm.CollectErrors` | src/components/customer/CustomerModal.jsx:59-86 | one error key per failing field with its message (blank name; missing or non-positive amount; missing or reversed dates only in calendar mode; missing or non-positive hours only in hours mode); the map is empty exactly when the form is valid |
| `RentalForm.ReportsIsUnique` | src/components/customer/CustomerModal.jsx:58-88 | the error report is determined by the form, the mode and the range |
| `RentalForm.ModesIgnoreOtherField` | src/components/customer/CustomerModal.jsx:73-85 | validity in calendar mode does not depend on the hours text, and in hours mode it does not depend on the dates |
| `RentalForm.SameDayRangeAccepted` | src/components/customer/CustomerModal.jsx:76 | a range whose start and end are equal passes the date check |
| `RentalForm.BuildPayload` | src/components/customer/CustomerModal.jsx:95-103 | amount is the parsed, positive amount; hours is the inclusive day span (at least 1) in calendar mode and the parsed positive hours otherwise; the date range is passed only in calendar mode |
| `RentalForm.CustomerModal.constructor` | src/components/customer/CustomerModal.jsx:26-33 | empty name, amount and hours, status pending, no errors |
| `RentalForm.CustomerModal.HandleChange` | src/components/customer/CustomerModal.jsx:35-49 | the field takes the new text; a non-empty error for that field becomes '' and the key stays |
| `RentalForm.CustomerModal.HandleDateChange` | src/components/customer/CustomerModal.jsx:51-56 | only the chosen endpoint of the shared date range changes |
| `RentalForm.CustomerModal.ValidateForm` | src/components/customer/CustomerModal.jsx:58-89 | the errors become the form's report and the answer is true exactly when no key was set |
| `RentalForm.CustomerModal.HandleSubmit` | src/components/customer/CustomerModal.jsx:91-126 | an invalid form never reaches `addCustomer` and changes neither the form nor the store; a valid one appends the built payload's record on success and resets the form, and keeps the form on failure |
| `LoginForm.IsTenDigits` | src/components/auth/Login.jsx:56 | a matching phone is exactly ten characters long and so never empty |
| `LoginForm.Checks` | src/components/auth/Login.jsx:32-60 | three checks when signing in and five when registering, with the five messages in a fixed order; all pass exactly when the username has at least 3 characters, the password at least 6, and when registering the phone is ten digits |
| `LoginForm.FirstFailure` | src/components/auth/Login.jsx:32-60 | nothing is reported exactly when every check passes; otherwise the report is the message of a failing check all of whose predecessors pass |
| `LoginForm.FirstFailureAt` | src/components/auth/Login.jsx:32-60 | when checks 0..k-1 pass and check k fails, check k's message is reported |
| `LoginForm.MissingFieldReportedFirst` | src/components/auth/Login.jsx:34-37 | an empty username or password yields 'Please fill in all required fields' in both modes |
| `LoginForm.ShortUsernameReported` | src/components/auth/Login.jsx:39-42 | with both fields filled, a username under 3 characters is the error |
| `LoginForm.ShortPasswordReported` | src/components/auth/Login.jsx:44-47 | past the first two checks, a password under 6 characters is the error |
| `LoginForm.RegistrationPhoneChecks` | src/components/auth/Login.jsx:50-60 | in registration mode a missing phone and then a phone that is not exactly ten digits are the errors; the form passes exactly when the phone is ten digits |
| `LoginForm.SignInIgnoresPhone` | src/components/auth/Login.jsx:50 | in sign-in mode the phone never changes the error, and the form passes exactly on the three common checks |
| `LoginForm.Login.constructor` | src/components/auth/Login.jsx:16-22 | sign-in mode, empty fields, no error |
| `LoginForm.Login.HandleChange` | src/components/auth/Login.jsx:24-30 | only the named field changes |
| `LoginForm.Login.ToggleMode` | src/components/auth/Login.jsx:161 | the mode flips between sign-in and registration |
| `LoginForm.Login.ValidateForm` | src/components/auth/Login.jsx:32-64 | the early-return chain leaves the first failing check's message, or '' and true when all pass |
| `LoginForm.Login.HandleSubmit` | src/components/auth/Login.jsx:66-86 | an invalid form makes no auth call; a valid one signs in (login mode) or registers with the phone (registration mode) |

## Left out

- Firestore and Auth calls (`addDoc`, `updateDoc`, `deleteDoc`, `getDocs`, `onSnapshot`, the Auth functions) are foreign I/O. Each write's outcome is a parameter, and the ids come from the store.
- The `user_info` lookup and update or delete by name (AppContext.jsx:318-336, 373-390) is remote. Its only local effect is the failure path: a failed update step fails `updateCustomer`, and a failed delete step is ignored. Its first-match ambiguity is not modelled.
- The midnight timer and `saveDailyDataToHistory` (AppContext.jsx:57-124) are `setTimeout` scheduling plus remote queries.
- Subscription setup and teardown, the listeners' error callbacks and the `loading` flags are not modelled.
- `registerUser`, `signInUser` and `signOutUser` with `authLoading` and `authError` are not modelled. The login form's submit step returns the request it would make. `onSuccess` is not modelled.
- A patch carries only the keys name, amount, status, hours and phone. These are the keys that `updateCustomer` reads (AppContext.jsx:318-332, 344-347), and the only caller sends `{status}` (CustomerList.jsx:39). The spread at AppContext.jsx:340 would also override any other key a caller passed, such as `id`, `userId` or `createdAt`. The model cannot express that, so `Ledger.Merge` keeping those fields holds only for patches of these five keys.
- `hasWarning` comes from `Math.random()`. It is a parameter.
- `parseFloat`, `isNaN`, floating point and `toFixed` are not modelled. Amounts and hours are integers, for example paise. The numeric reading of a field accepts an optional sign followed by decimal digits, so decimal points, exponents, surrounding whitespace and hexadecimal text are not modelled. In particular the model rejects an amount or hours text such as `2.5` with "must be a positive number", while the source accepts it as 2.5. The model also rejects whitespace-only text such as `"   "`, which the source accepts: `isNaN` reads it as 0 and so passes it, `parseFloat` gives NaN, and `NaN <= 0` is false (CustomerModal.jsx:67, 82). The source then sends NaN to `addCustomer` as the amount or hours (CustomerModal.jsx:97-98), and a paid record with a NaN amount makes the total NaN (AppContext.jsx:270). The same holds for the text `"Infinity"`, which the source accepts as an infinite amount.
- date-fns formatting is not modelled. Instants are integer milliseconds, and a record's calendar day is the floor of (instant + UTC offset) / one day for a fixed offset, with no daylight-saving changes. The listed days are ordered numerically. This is the same as the lexicographic order of `yyyy-MM-dd` strings for four-digit years.
- The record's display copies (`dates`, `time`, `timeFormatted`, from `formatTime`) and `updatedAt` are not modelled. `deleteCustomer` and `updateCustomer` read the `customers` value captured by the React closure. The model runs operations one at a time and reads the current list.
- `String.length` counts UTF-16 code units. The model counts characters, so the two differ only for characters outside the Basic Multilingual Plane. `trim` is modelled for the ASCII whitespace and the no-break space only.
- `setUseCalendar`, `setSelectedDate` and `setDateRange` are plain setters. The date filter of the rentals query belongs to the remote query. The dialog's `onClose`, its alerts and all rendering are UI and are not modelled.
