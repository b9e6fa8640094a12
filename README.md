# FlowSyndicate stores and router, modelled in Dafny

FlowSyndicate is a single-page application for a dance studio's schedule and
bookings. Its state lives in four Pinia stores, and each store persists its data
in the browser's `localStorage`:

- **auth** holds the session: the signed-in user and a token.
- **user** holds a participant's children, bookings and payments.
- **classes** holds the weekly schedule and the groups, and derives the
  per-day view of the schedule.
- **admin** scans storage for users, children and payments, keeps the
  attendance journal, and computes statistics.

The router mounts three layouts. The public one is open to everyone. The
participant dashboard is guarded by `requireAuth`, and the administration area
by `requireAdmin`.

This project models each store as a Dafny `class`. The class's fields are the
store's refs. Its methods change those fields and a shared `LocalStorage`
object, and each method's `ensures` ties the new state to a pure function of
the old one.

`LocalStorage` is an insertion-ordered sequence of key/value entries. Its values
are the documents the stores write:

- a user, a schedule, groups, children, bookings, payments or attendances;
- raw text, which is what the token is, and what `JSON.parse` rejects.

A thrown error (`Доступ запрещен`, `Пользователь не авторизован`) becomes an
`Outcome` that is `Rejected(...)`, with no state change. The clock (`Date.now()`
and `toISOString()`) enters as the parameters `now` and `iso`.

Files and modules:

- `util.dfy` (Util): `Option`, `startsWith`, lexicographic string order,
  decimal rendering of numbers, `filter` and `find`.
- `types.dfy` (Types): the entities and enumerations of
  `src/types/index.ts`, and the `HH:mm` time format.
- `storage.dfy` (Storage): stored entries, the typed readers that
  stand in for `JSON.parse`, and the `LocalStorage` class.
- `auth.dfy` (Auth): session transitions and `AuthStore`.
- `user.dfy` (Participant): `UserStore` and the pending-payment
  total.
- `classes.dfy` (Catalog): `ClassesStore`, the day-by-day partition
  and sorting of the schedule, and the seed data.
- `admin.dfy` (Administration): the storage scans, the statistics
  and `AdminStore`.
- `router.dfy` (RouteTable, Router): the route table and the two guards.

Where the code and the written design differ, the model follows the code:

- `isAuthenticated` is `!!user && !!token`, so an empty token does not count
  as a session.
- A child is built by `addChild` with `birthDate` and `phone`, although the
  `Child` interface declares `birthYear`. The model's `Child` has the fields
  that `addChild` writes.

## Model

| member | source | states |
|---|---|---|
| Types.WeekDaysAreSevenDistinct | src/types/index.ts:55-63 | there are exactly seven week days, every day is listed once, and their stored names are distinct |
| Types.EnumerationsAreDistinct | src/types/index.ts:8-41 | the string values of the role, class type, class status and payment status enumerations are pairwise distinct |
| Types.TimeOrderIsStringOrder | src/stores/classes.ts:41-43 | for zero-padded `HH:mm` times, lexicographic order on the text agrees with order by minutes since midnight |
| Util.FindFirst | src/stores/classes.ts:222-224 | `find` returns nothing iff no element passes; otherwise it returns the element at the first index that passes |
| Storage.Lookup | src/stores/auth.ts:112-113 | `getItem` answers nothing exactly for keys not stored; an answer is the entry stored under that key |
| Storage.LookupPut | src/stores/auth.ts:48-49 | after `setItem(k, v)`, `getItem(k)` is `v` and every other key reads as before |
| Storage.PutKeys | src/stores/auth.ts:48-49 | `setItem` keeps the key order and appends a key that was not yet stored |
| Storage.PutIdempotent | src/stores/auth.ts:48-49 | writing the same value twice leaves storage as writing it once |
| Storage.LookupRemove | src/stores/auth.ts:104-105 | after `removeItem(k)`, `k` is absent and every other key reads as before |
| Storage.RemoveAbsent | src/stores/auth.ts:104-105 | removing a key that is not stored changes nothing |
| Storage.PutKeepsDistinct | src/stores/auth.ts:48-49 | `setItem` keeps the keys distinct |
| Storage.RemoveKeepsDistinct | src/stores/auth.ts:104-105 | `removeItem` keeps the keys distinct |
| Storage.LookupFindsEntries | src/stores/admin.ts:40-45 | with distinct keys, every entry a scan of `Object.keys` visits is exactly what `getItem` returns for its key |
| Storage.LocalStorage.SetItem | src/stores/auth.ts:48-49 | the keys stay distinct; the new entries are the old ones with the key written; that key now reads the value, and no other key changes |
| Storage.LocalStorage.RemoveItem | src/stores/auth.ts:104-105 | the keys stay distinct; the key is gone; no other key changes |
| Auth.RoleFlags | src/stores/auth.ts:18-19 | `isAdmin` and `isUser` never both hold; one of them holds iff there is a user |
| Auth.AuthenticatedIffUser | src/stores/auth.ts:17 | in every reachable session (the token is non-empty whenever a user is set), `isAuthenticated` holds iff there is a user |
| Auth.LoginRole | src/stores/auth.ts:71-80 | the e-mail `admin@flowsyndicate.pl`, and only it, yields role admin with id `admin_1`; any other e-mail yields role user with an id starting `user_`; the e-mail is copied |
| Auth.RegisterCopiesInput | src/stores/auth.ts:33-40 | `register` always signs in with role user, and copies the e-mail and phone |
| Auth.SignedInAgrees | src/stores/auth.ts:42-49 | signing in stores the same token and user that it sets in memory, and the session is authenticated |
| Auth.LoginAuthenticates | src/stores/auth.ts:61-96 | after `login`, the session is authenticated, and storage holds its token and user |
| Auth.RegisterAuthenticates | src/stores/auth.ts:24-56 | after `register`, the session is authenticated, and storage holds its token and user |
| Auth.RestoreAfterSignIn | src/stores/auth.ts:111-124 | a reload that starts from an empty session over the storage written at sign-in restores exactly the signed-in session, and a reload of the signed-in session changes nothing |
| Auth.LogoutClears | src/stores/auth.ts:101-106 | `logout` clears user, token and both stored keys, and leaves every other stored key unchanged |
| Auth.LogoutIdempotent | src/stores/auth.ts:101-106 | logging out twice is the same as logging out once |
| Auth.CorruptUserClears | src/stores/auth.ts:115-122 | a stored user that does not parse leads to a logout, and the session is not authenticated |
| Auth.RestoreWithoutStoredPair | src/stores/auth.ts:115 | with no stored token or no stored user, `restoreSession` changes nothing |
| Auth.RestoreAdoptsStoredPair | src/stores/auth.ts:115-118 | a stored non-empty token and a stored user become the session, which is then authenticated |
| Auth.RestoreIdempotent | src/stores/auth.ts:111-124 | restoring twice is the same as restoring once |
| Auth.RestoreAfterLogout | src/stores/auth.ts:101-124 | a restore after a logout finds nothing, and the session stays unauthenticated |
| Auth.ActionsKeepConsistent | src/stores/auth.ts:24-124 | register, login, logout and restore keep a non-empty token beside every user, and a token only beside a user |
| Auth.AuthStore.IsAuthenticated | src/stores/auth.ts:17 | it implies a user and a token; in a session where every user has a non-empty token, it holds exactly when a user is signed in |
| Auth.AuthStore.IsAdmin | src/stores/auth.ts:18 | it implies a signed-in user without role user; a user is signed in iff the user is an administrator or has role user |
| Auth.AuthStore.IsUser | src/stores/auth.ts:19 | it implies a signed-in user without role admin; a user is signed in iff the user has role user or is an administrator |
| Auth.AuthStore.constructor | src/stores/auth.ts:11-14 | a new store has no user, no token and no error |
| Auth.AuthStore.Register | src/stores/auth.ts:24-56 | the new session and storage are the `register` transition of the old ones; the error is cleared |
| Auth.AuthStore.Login | src/stores/auth.ts:61-96 | the new session and storage are the `login` transition of the old ones; the error is cleared |
| Auth.AuthStore.Logout | src/stores/auth.ts:101-106 | the new session and storage are the `logout` transition of the old ones |
| Auth.AuthStore.RestoreSession | src/stores/auth.ts:111-124 | the new session and storage are the `restoreSession` transition of the old ones |
| Auth.AuthStore.ClearError | src/stores/auth.ts:129-131 | the error is cleared; the user and token are unchanged |
| Participant.StatusTotalConcat | src/stores/admin.ts:211-217 | the total of one payment status over two lists is the sum of their totals |
| Participant.PendingTotalCountsOnlyPending | src/stores/user.ts:185-190 | `calculateTotalAmount` adds each pending payment's amount and nothing else |
| Participant.PendingTotalIgnoresSettled | src/stores/user.ts:185-190 | adding a payment that is not pending, at either end, leaves the total unchanged |
| Participant.PendingTotalBounds | src/stores/user.ts:185-190 | with non-negative amounts, the pending total lies between 0 and the sum of all amounts |
| Participant.PendingTotalFacts | src/stores/user.ts:185-190 | with no pending payment the total is 0; with non-negative amounts it is bounded by the sum |
| Participant.ChildrenExceptFacts | src/stores/user.ts:117 | the remaining children are exactly those whose id differs; removing twice removes once |
| Participant.AddThenRemove | src/stores/user.ts:76-130 | removing a freshly added child, whose id is new, restores the previous list |
| Participant.BookingFiltersDisjoint | src/stores/user.ts:29-34 | planned and attended bookings are drawn from the bookings by their status, and no booking is in both |
| Participant.UserStore.constructor | src/stores/user.ts:13-25 | a new store is empty, its price list is 70 / 250 / 380 / 120 PLN, and it shares the auth store's storage |
| Participant.UserStore.HasChildren | src/stores/user.ts:28 | it holds iff the store holds some child |
| Participant.UserStore.PlannedBookings | src/stores/user.ts:29-31 | exactly the bookings with status planned |
| Participant.UserStore.AttendedBookings | src/stores/user.ts:32-34 | exactly the bookings with status attended, none of them planned |
| Participant.UserStore.CalculateTotalAmount | src/stores/user.ts:185-190 | 0 when nothing is pending; between 0 and the sum of amounts when amounts are non-negative |
| Participant.UserStore.LoadChildren | src/stores/user.ts:39-59 | without a user, nothing changes; otherwise the children become the list stored under `children_<id>`, or an error is set if that does not parse |
| Participant.UserStore.AddChild | src/stores/user.ts:64-102 | rejected without a user; otherwise the new child has id `child_<now>`, `createdAt` and `updatedAt` equal to the clock reading, belongs to the user, carries the input fields, is appended, and the list is stored under `children_<id>`; the store then has children |
| Participant.UserStore.RemoveChild | src/stores/user.ts:107-130 | without a user, nothing changes; otherwise the children with that id are dropped and the list is stored |
| Participant.UserStore.LoadBookings | src/stores/user.ts:135-155 | without a user, nothing changes; otherwise the bookings become the list stored under `bookings_<id>`, or an error is set |
| Participant.UserStore.LoadPayments | src/stores/user.ts:160-180 | without a user, nothing changes; otherwise the payments become the list stored under `payments_<id>`, or an error is set |
| Participant.UserStore.ClearData | src/stores/user.ts:195-200 | all three lists are empty and the error is cleared, so there are no children and the total is 0 |
| Catalog.InsertByStartCorrect | src/stores/classes.ts:40-44 | inserting into a start-time-sorted bucket keeps it sorted and adds exactly that class |
| Catalog.SortByStart | src/stores/classes.ts:40-44 | the result is sorted by start time and is a permutation of the bucket |
| Catalog.DayBuckets | src/stores/classes.ts:23-37 | each of the seven buckets holds exactly the active classes of its day, in schedule order |
| Catalog.SortBuckets | src/stores/classes.ts:40-44 | every bucket becomes sorted by start time, and is a permutation of what it was |
| Catalog.BucketsPartitionActive | src/stores/classes.ts:22-47 | the seven buckets together hold each active class exactly once, and nothing else |
| Catalog.DayClassesMembers | src/stores/classes.ts:34-36 | a class is in a day's bucket iff it is in the schedule, is active, and falls on that day |
| Catalog.SortedByStartIsTimeOrder | src/stores/classes.ts:41-43 | a sorted bucket of well-formed times is in chronological order |
| Catalog.DefaultScheduleIds | src/stores/classes.ts:236-305 | the seed schedule has six active classes with distinct ids |
| Catalog.DefaultScheduleTimes | src/stores/classes.ts:236-305 | every seed class has well-formed `HH:mm` times, and it starts before it ends |
| Catalog.DefaultGroupsFacts | src/stores/classes.ts:310-337 | there are three seed groups with distinct ids, and every seed class names one of them |
| Catalog.ClassesStore.constructor | src/stores/classes.ts:15-19 | a new store has an empty schedule, no groups and no error, and sees the same session and storage as the user store |
| Catalog.ClassesStore.ScheduleByDay | src/stores/classes.ts:22-47 | every day has a bucket; each bucket is sorted by start time and is a permutation of that day's active classes |
| Catalog.ClassesStore.LoadSchedule | src/stores/classes.ts:52-77 | a stored non-empty schedule is adopted; an empty or missing one is replaced by the seed, which is stored; one that does not parse sets the error |
| Catalog.ClassesStore.LoadGroups | src/stores/classes.ts:82-106 | the same for the groups, with the three seed groups |
| Catalog.ClassesStore.BookClass | src/stores/classes.ts:111-152 | rejected without a user; otherwise a planned booking with id `booking_<now>`, `createdAt` and `updatedAt` equal to the clock reading and the input fields is appended to the participant's bookings and stored under `bookings_<id>` |
| Catalog.ClassesStore.CreateScheduleClass | src/stores/classes.ts:157-192 | rejected for a non-administrator with nothing changed; otherwise an active class with id `schedule_<now>`, `createdAt` and `updatedAt` equal to the clock reading and the input fields is appended and the schedule is stored |
| Catalog.ClassesStore.DeleteScheduleClass | src/stores/classes.ts:197-217 | rejected for a non-administrator; otherwise the classes with that id are dropped and the schedule is stored |
| Catalog.ClassesStore.GetClassById | src/stores/classes.ts:222-224 | nothing iff no class has the id; otherwise the first class with that id |
| Catalog.ClassesStore.GetGroupById | src/stores/classes.ts:229-231 | nothing iff no group has the id; otherwise the first group with that id |
| Catalog.ScheduleWithoutFacts | src/stores/classes.ts:209 | the remaining classes are exactly those whose id differs; deleting twice deletes once; deleting an absent id changes nothing |
| Catalog.CreateThenDelete | src/stores/classes.ts:169-209 | deleting a freshly created class, whose id is new, restores the previous schedule |
| Administration.CollectMembers | src/stores/admin.ts:41-52 | an item is found by a scan of storage iff some stored entry yields it |
| Administration.StoredUsersExactly | src/stores/admin.ts:41-52 | a user is listed iff it is stored under a key starting `auth_user` and has a non-empty id and e-mail |
| Administration.LoggedInUserListed | src/stores/admin.ts:41-52 | after a login with a non-empty e-mail, the scan lists the signed-in user |
| Administration.EmptyEmailNotListed | src/stores/admin.ts:46 | a user with an empty e-mail is never listed |
| Administration.NewChildrenKeyAppends | src/stores/admin.ts:81-92 | storing a new `children_<id>` list appends exactly those children to the scan |
| Administration.PeriodDoesNotFilter | src/stores/admin.ts:193-222 | the requested period is recorded in the result, but no payment is filtered by it: revenue and pending are the same for every period |
| Administration.PaidPlusPendingBounded | src/stores/admin.ts:211-217 | with non-negative amounts, revenue and pending are non-negative, and together at most the sum of all amounts |
| Administration.FinancialStatsSplit | src/stores/admin.ts:206-222 | revenue and pending over two parts of storage are the sums of the parts |
| Administration.PendingAgreesWithParticipant | src/stores/admin.ts:206-222 | for one participant's payments, the administrator's pending figure equals the participant's `calculateTotalAmount`, and revenue is the paid total |
| Administration.FinancialStatsBounds | src/stores/admin.ts:180-230 | with non-negative amounts, revenue and pending are non-negative and bounded by all stored amounts |
| Administration.PresentAbsentSplit | src/stores/admin.ts:248-250 | present and absent records together are all the records |
| Administration.RateIsPercentage | src/stores/admin.ts:251 | the rate lies in 0..100; it is 0 with no records or none present and 100 when all are present; rate × total = attended × 100 |
| Administration.AttendanceCounts | src/stores/admin.ts:248-262 | total is the number of records, missed is the number of absences, and attended + missed = total |
| Administration.AttendanceRateFacts | src/stores/admin.ts:248-262 | the rate is a percentage: 0 when nobody attended, 100 when everybody did |
| Administration.ChildrenOfUser | src/stores/admin.ts:273-275 | exactly the children whose `userId` is the given one |
| Administration.AddPayments | src/stores/admin.ts:211-217 | going through one list adds its paid total to the revenue and its pending total to the outstanding sum |
| Administration.PaymentTotals | src/stores/admin.ts:206-222 | the scan's two sums are the paid total and the pending total of all stored payments |
| Administration.AdminStore.constructor | src/stores/admin.ts:15-21 | a new store has empty lists, no statistics and no error, and shares the auth store's storage |
| Administration.AdminStore.LoadUsers | src/stores/admin.ts:26-61 | rejected for a non-administrator; otherwise the users are the scan of `auth_user` keys |
| Administration.AdminStore.LoadAllChildren | src/stores/admin.ts:66-101 | rejected for a non-administrator; otherwise the children are the concatenated `children_` lists |
| Administration.AdminStore.LoadAttendances | src/stores/admin.ts:106-128 | rejected for a non-administrator; otherwise the journal stored under `attendances`, or an error if that does not parse |
| Administration.AdminStore.MarkAttendance | src/stores/admin.ts:133-175 | rejected for a non-administrator; otherwise a record with id `attendance_<now>`, `createdAt` and `updatedAt` equal to the clock reading, the inputs, and marked by the administrator, is appended and the journal is stored |
| Administration.AdminStore.LoadFinancialStats | src/stores/admin.ts:180-230 | rejected for a non-administrator; otherwise the statistics are the paid and pending totals of storage over the requested period |
| Administration.AdminStore.LoadAttendanceStats | src/stores/admin.ts:235-268 | rejected for a non-administrator; otherwise the statistics of the loaded journal |
| Administration.AdminStore.GetChildrenByUserId | src/stores/admin.ts:273-275 | exactly the loaded children of that user |
| RouteTable.SectionOf | src/router/index.ts:59-160 | a route name has no section iff the table does not list it; otherwise the section that lists it |
| RouteTable.RouteNamesBySection | src/router/index.ts:59-160 | the table lists the public, dashboard and admin pages, in that order |
| RouteTable.TextInjective | src/router/index.ts:59-160 | two different routes have different `name` strings |
| RouteTable.RouteNamesDistinct | src/router/index.ts:59-160 | the table has sixteen routes, each listed exactly once, and their `name` strings are pairwise distinct |
| Router.AdminGuardIsStricter | src/router/index.ts:35-54 | whoever passes `requireAdmin` passes `requireAuth`; a user with role user never passes `requireAdmin` |
| Router.GuardsAfterSessionChanges | src/router/index.ts:35-54 | after a login both guards let the visitor in as the role allows; after a logout both send the visitor home |
| Router.PublicPagesOpen | src/router/index.ts:59-95 | every public page is open to everyone |
| Router.DashboardNeedsSession | src/router/index.ts:96-127 | a dashboard page proceeds iff the session is authenticated, and otherwise sends the visitor home |
| Router.AdminAreaNeedsAdmin | src/router/index.ts:128-159 | an administration page proceeds iff the session is an authenticated administrator's, and otherwise sends the visitor home |
| Router.Navigate | src/router/index.ts:35-160 | a route gets a decision iff the table lists it; only a public page or an authenticated session proceeds, and on an administration page only an administrator does; only a visitor outside the public pages who is not an authenticated administrator is sent home |
| Router.NavigationAlwaysDecides | src/router/index.ts:59-160 | every named route reaches a decision |

## Left out

- `isLoading` flags, `async`/`await`, and the wording of error messages. An error is `Some(text)` or `None`, and the text stands in for the original's.
- `src/main.ts`, the Vue components, i18n and the real back-end calls that are commented out are not part of this model.
- Clock readings enter as parameters. `Date.now()` is `now`, `toISOString()` is `iso`, and the period's two readings in `loadFinancialStats` are `monthAgoIso` and `nowIso`. No date arithmetic is modelled.
- Each action reads the clock once in the model: one `now` for `Date.now()` and one `iso` for every `toISOString()` call. In the code, `register` (src/stores/auth.ts:24-56) calls `Date.now()` twice, for the user id and the token; `login` (src/stores/auth.ts:61-96) calls it twice for an ordinary e-mail and once for the administrator's, whose id is the fixed `admin_1` (src/stores/auth.ts:74). Every record the actions create calls `toISOString()` twice, for `createdAt` and `updatedAt`; the default schedule calls it 12 times (src/stores/classes.ts:246-302) and the default groups 6 times (src/stores/classes.ts:317-334). The model gives all readings of one action the same value, so it does not capture ids and tokens minted in different milliseconds, or timestamps that differ within a record or between the seeded records.
- `JSON.parse` is modelled by the kind of the stored value. A document of the wrong kind under a key counts as unparseable. The original would sometimes accept such a value and fail later, or not at all.
- An empty stored string reads as a missing key, as `getItem(k) || '[]'` does.
- Storage quota errors from `setItem` are not modelled.
- The failure paths of `register` and `login` are not modelled. Their `catch` branches run when `localStorage.setItem` throws, for example on a full quota or a security error. The model has no such failure, and neither has any other `setItem` call.
- `Object.keys(localStorage)` is taken to list keys in insertion order. The scans read each entry's value directly. This matches `getItem` because `LocalStorage.Valid()` keeps the keys distinct (see `Storage.LookupFindsEntries`); every method that writes storage requires and preserves it.
- Catalog.SortByStart: `localeCompare` is modelled as plain character-by-character order. That order agrees with it on zero-padded `HH:mm` times, which is what the seed data and the forms use.
- Catalog.SortByStart: the sort works on a sequence, not on the bucket in place. Its order among classes with equal start times is not stated, although `Array.prototype.sort` is stable.
- Floating point: amounts are integers and the attendance rate is an exact rational. JavaScript rounding is not modelled.
- `revenueByClass`, `revenueByGroup`, `revenueByUser`, `byGroup` and `byChild` stay empty maps, as they do in the code.
- Route names are an enumeration, and `Text()` gives each one's string name. The component imports and the `next()` callback protocol are not modelled. A guard's decision is "go home" or "proceed". `Navigate` models entering a layout from outside it. vue-router runs a parent route's `beforeEnter` only when the parent is entered, not when moving between its child pages, and the model does not distinguish those navigations.
- The `classesStore` reference that the admin store creates is never used, so it is not modelled.
- `Child` follows what `addChild` writes (`birthDate`, `phone`), not the `birthYear` of the interface.
- Administration.AdminStore.MarkAttendance: when an administrator marks attendance, an earlier record for the same booking stays in the journal, as in the code.
