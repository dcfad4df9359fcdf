# Pilot app booking model

A Dafny model of the core of the drone-spraying pilot app: the in-memory booking store
(`AppContext`), the views the screens derive from it, the lifecycle actions the booking detail
screen and the booking card offer, and the small state machines of the login flow (screen
selection, phone check, six-cell OTP entry, the farmer OTP modal) and of the location picker.

The modules follow the app's files:

| module | file | form |
|---|---|---|
| `AppContext` | client/context/AppContext.tsx | datatypes for bookings and operators; a class `AppStore` whose methods replace its fields; pure queries |
| `CalendarScreen` | client/screens/CalendarScreen.tsx | a loop building the date groups, loops building the month grid, a class for the month shown, pure filters, time parse, sort and route legs |
| `HistoryScreen` | client/screens/HistoryScreen.tsx | pure window filter |
| `BookingDetailScreen` | client/screens/BookingDetailScreen.tsx | pure action table; handlers that call the store |
| `BookingCard` | client/components/BookingCard.tsx | pure gating; handlers that call the store |
| `BookingsListScreen` | client/screens/BookingsListScreen.tsx | pure tab table and filter |
| `DashboardScreen` | client/screens/DashboardScreen.tsx | pure counters, greeting and slice |
| `EarningsScreen` | client/screens/EarningsScreen.tsx | pure average and slice; the period selector |
| `OtpVerifyScreen` | client/screens/OtpVerifyScreen.tsx | class with six cells and a countdown |
| `OtpVerificationModal` | client/components/OTPVerificationModal.tsx | class with input, code, error and loading flag; pure sanitising and masking |
| `PhoneInputScreen` | client/screens/PhoneInputScreen.tsx | pure guard |
| `RootStackNavigator` | client/navigation/RootStackNavigator.tsx | pure screen selection; class with the three flags and the store |
| `LocationPicker` | client/components/LocationPicker.tsx | class with input, suggestions and flags; pure label split and reply mapping |

Helper modules: `Wrappers` (`Option`), `SeqUtil` (order-preserving `Filter`, subsequences,
`Take` for `slice(0, n)`, sums for `reduce`), `StableSort` (the stable sort ECMAScript requires
of `Array.prototype.sort`), `CivilTime` (proleptic Gregorian dates, `Date` month arithmetic and
the clock), `Text` (digits, whitespace, `toString`).

Representation choices:
- Instants are integers in milliseconds since the Unix epoch.
- An ISO date string is a `CivilDate` (year, month, day).
- "Now" is a `Clock` (a date and the milliseconds into it), passed in as a parameter.
- Amounts are integers; acreage and coordinates are reals.
- The translation file is a parameter of `AppStore.T`.
- The distance formula is a parameter `dist` of the route legs.
- Alerts, confirmations, navigation and focus requests are returned as values instead of being performed.

Two places where the code departs from what its labels suggest; the model follows the code:
- The time comparator in `sortedBookings` adds twelve hours only for PM hours other than 12, so
  `12:00 AM` is 720 minutes (noon), not midnight as the 12-hour clock reads it
  (`CalendarScreen.TwelveAmIsNoon`).
- `updateBookingStatus` accepts any status. Only the detail screen and the card restrict which
  changes a user can trigger, and the two disagree in one case: the card can complete an
  `active` booking directly (`BookingCard.CardBeyondDetail`). When a `completed` booking is
  moved to another status, its `completedAt` stays (`AppContext.ReopeningKeepsTimestamp`).

## Model

| member | source | states |
|---|---|---|
| AppContext.ByStatus | client/context/AppContext.tsx:241-244 | the result holds exactly the bookings whose status is among the requested ones, as an order-preserving subsequence of the store that keeps every copy of each |
| SeqUtil.FilterMultiplicity | client/context/AppContext.tsx:241-244 | `filter` keeps every copy of an element that passes and none of one that fails |
| AppContext.ByStatusOneIsMany | client/context/AppContext.tsx:242 | asking for one status equals asking for the one-element array of it; an empty array gives nothing |
| AppContext.TodayBookings | client/context/AppContext.tsx:246-249 | exactly the bookings scheduled on the clock's date, every copy, in store order |
| AppContext.OnDate | client/context/AppContext.tsx:248 | exactly the bookings scheduled on the given date, every copy, in store order |
| AppContext.Translate | client/context/AppContext.tsx:195-197 | the table's entry when present and non-empty, else the key itself; never empty for a non-empty key |
| AppContext.AppStore.T | client/context/AppContext.tsx:195-197 | `t(key)` is the translation of the key in the current language's table (the key itself when it is missing or empty there), never empty for a non-empty key |
| AppContext.EarningsSince | client/context/AppContext.tsx:267-277 | over the bookings completed with a timestamp at or after the start: the count is their number, the total the sum of their amounts and the acres the sum of their acreages; all zero when none qualifies |
| AppContext.EarningsSnoc | client/context/AppContext.tsx:267-277 | one booking more adds its amount, its acreage and one to the count exactly when it is completed since the start, and changes nothing otherwise |
| AppContext.EarningsExample | client/context/AppContext.tsx:267-277 | three qualifying bookings of 100, 250 and 50 give a total of 400 and a count of 3 |
| AppContext.Earnings | client/context/AppContext.tsx:251-278 | `getEarnings(period)`: exactly the totals since the period's start (today's start, seven days back, or the first of the month); zero totals when no booking qualifies |
| AppContext.EarningsSinceMonotone | client/context/AppContext.tsx:267-277 | a later start never counts more bookings, nor larger sums when amounts and acreages are non-negative |
| AppContext.TodayWithinWeekAndMonth | client/context/AppContext.tsx:255-265 | today's counted bookings are a subsequence of this month's and of the last week's, so today's count never exceeds either |
| AppContext.WithStatus | client/context/AppContext.tsx:219-232 | the copy-on-write map keeps length and positions; each booking with the id gets the new status, the others stay as they were |
| AppContext.CompletionInstant | client/screens/HistoryScreen.tsx:42-45 | a booking is dated by `completedAt` when it has one, otherwise by the start of its scheduled day (a whole number of days), and has no date only when neither exists |
| AppContext.CompletedIsDatedNow | client/context/AppContext.tsx:224-228 | a booking completed through the store at `now` is dated `now` and lies in any window starting at or before `now` |
| AppContext.WithStatusUnknownId | client/context/AppContext.tsx:222-230 | an id no booking has leaves the list identical |
| AppContext.WithStatusChangesOnlyStatus | client/context/AppContext.tsx:224-228 | a matching booking changes only `status` and `completedAt`; `completedAt` becomes now only on completion, otherwise the previous value is kept |
| AppContext.CompleteTwice | client/context/AppContext.tsx:224-228 | completing twice is the same as completing once at the later time |
| AppContext.WithStatusKeepsTimestamps | client/context/AppContext.tsx:224-228 | after any update, every completed booking still has a completion instant |
| AppContext.WithStatusKeepsMatch | client/context/AppContext.tsx:224-228 | "completedAt exactly when completed" survives any update that does not move a completed booking elsewhere |
| AppContext.ReopeningKeepsTimestamp | client/context/AppContext.tsx:219-232 | the store checks no transition: moving a completed booking back to pending keeps its old `completedAt` |
| AppContext.UpdatesCompose | client/context/AppContext.tsx:234-239 | merging two partial updates in turn is merging their combination, later fields winning |
| AppContext.AppStore.constructor | client/context/AppContext.tsx:188-193 | the store starts in English, signed out, with no operator and the seed bookings |
| AppContext.AppStore.SetLanguage | client/context/AppContext.tsx:199-201 | only the language changes |
| AppContext.AppStore.Login | client/context/AppContext.tsx:203-209 | signed in, with the template operator carrying the supplied phone; bookings and language unchanged |
| AppContext.AppStore.Logout | client/context/AppContext.tsx:211-217 | signed out with no operator; bookings and language unchanged |
| AppContext.AppStore.UpdateBookingStatus | client/context/AppContext.tsx:219-232 | the bookings become the status-updated copy; session and language unchanged |
| AppContext.AppStore.UpdateOperator | client/context/AppContext.tsx:234-239 | a present operator gets the updates merged in; a missing operator stays missing; nothing else changes |
| CivilTime.DaysInMonth | client/screens/CalendarScreen.tsx:93 | a month has 28 to 31 days, February 29 exactly in leap years |
| CivilTime.ShiftMonth | client/screens/CalendarScreen.tsx:99-105 | the result is a valid first of a month exactly `delta` months away |
| CivilTime.NextMonthRollover | client/screens/CalendarScreen.tsx:103-105 | next month stays in the year before December and rolls to January of the next year after it |
| CivilTime.PreviousMonthRollover | client/screens/CalendarScreen.tsx:99-101 | previous month stays in the year after January and rolls to December of the previous year from it |
| CivilTime.ShiftMonthUndo | client/screens/CalendarScreen.tsx:99-105 | previous undoes next and next undoes previous, landing on the 1st of the starting month |
| CivilTime.MonthLength | client/screens/CalendarScreen.tsx:93 | `new Date(y, m + 1, 0).getDate()`: the days between the 1st of this month and the 1st of the next are the month's length |
| CivilTime.DateLeIsChronological | client/screens/CalendarScreen.tsx:57 | for valid dates, year-month-day order is day-number order, so comparing ISO date strings of four-digit years (0000 to 9999) orders dates chronologically |
| CivilTime.PeriodStartsOrdered | client/context/AppContext.tsx:255-265 | the 1st of the month at midnight is not after today's midnight, which is not after now; a week before now is before today's midnight |
| CalendarScreen.BookingsByDate | client/screens/CalendarScreen.tsx:52-65 | the `forEach` builds a map with a group for each present or future date that has bookings, each group the store's bookings of that date in order |
| CalendarScreen.GroupingStep | client/screens/CalendarScreen.tsx:57-62 | one push keeps the grouping exact for the longer prefix |
| CalendarScreen.GroupOfEachBooking | client/screens/CalendarScreen.tsx:57 | a booking is in the group of date d exactly when d is its date and d is today or later, so it is in one group at most |
| CalendarScreen.SelectedFromStore | client/screens/CalendarScreen.tsx:67-73 | the route list is the store's bookings of the selected date that pass the filter, and empty for a past date |
| CalendarScreen.AcceptedWithinAll | client/screens/CalendarScreen.tsx:69-72 | 'accepted' keeps only active and in-progress bookings, 'all' only pending, active and in-progress ones, and the first list is a subsequence of the second |
| CalendarScreen.ParseTime | client/screens/CalendarScreen.tsx:77-84 | a label parses exactly when it has the `HH:MM AM`/`HH:MM PM` shape; what it parses to is stated by `ParseTimeLabel` and `LabelOfParse` |
| CalendarScreen.TimeLabel | client/screens/CalendarScreen.tsx:77-84 | the zero-padded `HH:MM AM`/`HH:MM PM` label of an hour and minute has the shape the comparator reads |
| CalendarScreen.ParseTimeLabel | client/screens/CalendarScreen.tsx:77-84 | the label of hour h and minute m reads as `(isPM && h !== 12 ? h + 12 : h) * 60 + m` minutes, for every h and m |
| CalendarScreen.LabelOfParse | client/screens/CalendarScreen.tsx:77-84 | every label that parses is the label of the hour and minute it is read as, and reads as their minutes |
| CalendarScreen.MinutesOfDay | client/screens/CalendarScreen.tsx:83-84 | a time from 1 to 12 o'clock gives a minute of the day from 60 to 1439 |
| CalendarScreen.TwelveAmIsNoon | client/screens/CalendarScreen.tsx:77-84 | `12:00 AM` and `12:00 PM` both give 720 and `01:30 PM` gives 810 |
| CalendarScreen.MinutesOrder | client/screens/CalendarScreen.tsx:83-85 | within a half day the comparator orders by hour and minute, and every 1-11 PM time is after every 1-11 AM time |
| CalendarScreen.SortedBookings | client/screens/CalendarScreen.tsx:75-87 | the sorted list is a permutation of the day's list, non-decreasing in parsed minutes, and keeps the original order of equal times |
| CalendarScreen.RouteOrderExample | client/screens/CalendarScreen.tsx:75-87 | stops at 09:00 AM, 02:00 PM and 11:30 AM are visited at 09:00, 11:30 and 14:00 |
| CalendarScreen.GetDaysInMonth | client/screens/CalendarScreen.tsx:89-95 | the first weekday is `Weekday` of the month's 1st (0 for Sunday) and the day count is the Gregorian month length |
| CivilTime.WeekdayPinned | client/screens/CalendarScreen.tsx:92 | `getDay()` is 4 (Thursday) on 1970-01-01 and two dates' weekdays differ by their distance in days modulo seven |
| CalendarScreen.MonthShapeExample | client/screens/CalendarScreen.tsx:89-95 | October 2026 starts on a Thursday (4) and has 31 days |
| CalendarScreen.LeapMonthShapeExample | client/screens/CalendarScreen.tsx:89-95 | February 2024, in a leap year, starts on a Thursday (4) and has 29 days |
| CalendarScreen.Dots | client/screens/CalendarScreen.tsx:157-166 | a day shows the statuses of its first three bookings, in order; all of them when it has fewer than three; none when the date has no group |
| CalendarScreen.DotsFromStore | client/screens/CalendarScreen.tsx:52-166 | over the screen's grouping, a date from today on shows the statuses of the first three store bookings scheduled on it, and a past date none |
| CalendarScreen.RenderCalendarDays | client/screens/CalendarScreen.tsx:123-172 | the two loops produce `firstDay` blank cells followed by one cell for each day of the month, in order |
| CalendarScreen.DayCellsAreTheMonth | client/screens/CalendarScreen.tsx:131-136 | every day cell is a valid date of the month shown and has at most three dots |
| CalendarScreen.CalendarView.constructor | client/screens/CalendarScreen.tsx:43-46 | the calendar opens on this month's 1st, today selected, the 'accepted' filter |
| CalendarScreen.CalendarView.PreviousMonth | client/screens/CalendarScreen.tsx:99-101 | the month shown moves one month back to its 1st; nothing else changes |
| CalendarScreen.CalendarView.NextMonth | client/screens/CalendarScreen.tsx:103-105 | the month shown moves one month on to its 1st; nothing else changes |
| CalendarScreen.CalendarView.SelectDate | client/screens/CalendarScreen.tsx:146 | pressing a day selects its date |
| CalendarScreen.CalendarView.SetRouteFilter | client/screens/CalendarScreen.tsx:46 | only the route filter changes |
| CalendarScreen.NavigateAndBack | client/screens/CalendarScreen.tsx:99-105 | next then previous shows the month it started on |
| CalendarScreen.DistanceToBooking | client/screens/CalendarScreen.tsx:174-194 | the first stop is measured from home when there is an operator and is 0 without one; every later stop is measured from the previous stop; only the first leg with an operator is marked as from home |
| CalendarScreen.Walk | client/screens/CalendarScreen.tsx:174-194 | walking the stops while carrying the previous point gives one leg per stop |
| CalendarScreen.LegsFollowTheWalk | client/screens/CalendarScreen.tsx:174-194 | the leg the screen computes by index equals the leg of a walk from home through the stops in sorted order |
| HistoryScreen.FilterBookings | client/screens/HistoryScreen.tsx:24-46 | 'all' returns the list itself; a window keeps, in order, exactly the bookings whose `completedAt` (else scheduled day) is at or after the window's start, every copy |
| HistoryScreen.History | client/screens/HistoryScreen.tsx:22-48 | the period filter applied to the completed bookings; every listed booking is completed and in the store, and every completed booking inside the window (any, for 'all') is listed |
| HistoryScreen.SevenDaysWithinThreeMonths | client/screens/HistoryScreen.tsx:28-36 | the 7-day list is a subsequence of the 3-month list |
| HistoryScreen.TodayIsInEveryWindow | client/screens/HistoryScreen.tsx:28-45 | a booking placed at or after today's midnight is listed under every filter |
| BookingDetailScreen.FindIndex | client/screens/BookingDetailScreen.tsx:29 | the index of the first booking with the id, or none exactly when no booking has it |
| BookingDetailScreen.FindBooking | client/screens/BookingDetailScreen.tsx:29-39 | the first booking in the store with the id (by `FindIndex`, which no earlier booking matches), or not found exactly when no booking has the id |
| BookingDetailScreen.OfferedActions | client/screens/BookingDetailScreen.tsx:204-248 | the footer offers nothing exactly for completed and cancelled bookings |
| BookingDetailScreen.DetailTransitions | client/screens/BookingDetailScreen.tsx:45-248 | the screen's status changes are exactly pending→active, pending→cancelled, active→cancelled, active→in_progress and in_progress→completed |
| BookingDetailScreen.CompletedOnlyFromInProgress | client/screens/BookingDetailScreen.tsx:204-248 | completed is reached only from in_progress, and nothing leaves completed or cancelled |
| BookingDetailScreen.HandleAccept | client/screens/BookingDetailScreen.tsx:45-48 | the booking becomes active and an alert is shown |
| BookingDetailScreen.HandleDecline | client/screens/BookingDetailScreen.tsx:50-66 | after 'yes' the booking is cancelled and the screen goes back; after 'no' nothing changes |
| BookingDetailScreen.HandleStartSpray | client/screens/BookingDetailScreen.tsx:68-71 | the booking becomes in_progress and an alert is shown |
| BookingDetailScreen.HandleComplete | client/screens/BookingDetailScreen.tsx:73-77 | the booking is completed at now, an alert is shown and the screen goes back |
| BookingDetailScreen.HandleCancel | client/screens/BookingDetailScreen.tsx:79-95 | after 'yes' the booking is cancelled and the screen goes back; after 'no' nothing changes |
| BookingDetailScreen.Perform | client/screens/BookingDetailScreen.tsx:45-95 | each handler moves the booking to its action's target, except that a declined confirmation changes nothing; session and language stay |
| BookingDetailScreen.Press | client/screens/BookingDetailScreen.tsx:29-248 | an unknown id or a button not shown changes nothing; otherwise the booking moves to the action's target; with unique ids "completedAt exactly when completed" is kept |
| BookingCard.CardActions | client/components/BookingCard.tsx:35-135 | compact cards and cards without `showActions` offer nothing, and neither do completed or cancelled bookings |
| BookingCard.CardTransitions | client/components/BookingCard.tsx:23-135 | the card's status changes are exactly pending→active, pending→cancelled, active→completed and in_progress→completed |
| BookingCard.CardBeyondDetail | client/components/BookingCard.tsx:126-135 | the card's only change the detail screen does not offer is active→completed; the detail screen alone offers active→cancelled and active→in_progress |
| BookingCard.Handle | client/components/BookingCard.tsx:23-33 | each handler updates the card's own booking id to its status and nothing else |
| BookingCard.Press | client/components/BookingCard.tsx:23-135 | a button not shown changes nothing; bookings with other ids never change; with unique ids "completedAt exactly when completed" is kept |
| BookingsListScreen.FindTab | client/screens/BookingsListScreen.tsx:35 | the first tab entry with the key, or none exactly when the table lacks it |
| BookingsListScreen.ListedBookings | client/screens/BookingsListScreen.tsx:35 | the list holds exactly the bookings whose status is among the tab's, every copy, in store order, and is empty for a tab missing from the table |
| BookingsListScreen.TabSets | client/screens/BookingsListScreen.tsx:29-33 | the tabs hold {pending}, {active, in_progress} and {completed} |
| BookingsListScreen.TabMembership | client/screens/BookingsListScreen.tsx:29-35 | a status is among a tab's statuses exactly when that tab is its status's tab |
| BookingsListScreen.TabsPartition | client/screens/BookingsListScreen.tsx:29-35 | a booking is listed under a tab exactly when that is its status's tab, so under one tab at most, and a cancelled booking under none |
| BookingsListScreen.TabsDisjoint | client/screens/BookingsListScreen.tsx:29-33 | no status belongs to two tabs |
| BookingsListScreen.ListedCardsHaveActions | client/screens/BookingsListScreen.tsx:78 | cards listed under the pending and active tabs show buttons; cards under the completed tab show none |
| DashboardScreen.ActiveBookings | client/screens/DashboardScreen.tsx:26 | exactly the bookings neither completed nor cancelled, every copy, in store order |
| DashboardScreen.CountsAddUp | client/screens/DashboardScreen.tsx:37-38 | the pending count plus the active count is the number of open bookings |
| DashboardScreen.GreetingThresholds | client/screens/DashboardScreen.tsx:30-35 | morning before 12, afternoon from 12 to 16, evening from 17 |
| DashboardScreen.ShownBookings | client/screens/DashboardScreen.tsx:104-111 | at most three open bookings are shown, the first ones in store order, and all of them when there are fewer |
| EarningsScreen.Round | client/screens/EarningsScreen.tsx:108 | `Math.round` gives the integer within half a unit of its argument, halves going up |
| EarningsScreen.AverageIsIntegerQuotient | client/screens/EarningsScreen.tsx:108 | the rounded mean equals (2·total + count) div (2·count), and count times it differs from the total by at most half the count |
| EarningsScreen.Displayed | client/screens/EarningsScreen.tsx:22-108 | the cards show the totals, count and acreage of `getEarnings(period)`, with an average of 0 for no bookings and the rounded quotient otherwise |
| EarningsScreen.RecentTransactions | client/screens/EarningsScreen.tsx:122 | the first ten completed bookings in store order, or all of them when there are fewer than ten |
| EarningsScreen.EarningsView.constructor | client/screens/EarningsScreen.tsx:20 | the period starts as 'week' |
| EarningsScreen.EarningsView.SetPeriod | client/screens/EarningsScreen.tsx:20 | the period selector sets the period shown |
| OtpVerifyScreen.JoinOfShortCells | client/screens/OtpVerifyScreen.tsx:53-70 | with cells of at most one character, the joined code has full length exactly when no cell is empty |
| OtpVerifyScreen.LastCharacter | client/screens/OtpVerifyScreen.tsx:34-36 | a cell keeps only the last character typed |
| OtpVerifyScreen.MaskedPhone | client/screens/OtpVerifyScreen.tsx:69 | `+91 `, the first five characters, a space, then the rest; removing the inserted parts gives the phone back |
| OtpVerifyScreen.OtpEntry.constructor | client/screens/OtpVerifyScreen.tsx:21-22 | six empty cells and a 60-second countdown |
| OtpVerifyScreen.OtpEntry.HandleOtpChange | client/screens/OtpVerifyScreen.tsx:33-45 | only the edited cell changes, to at most one character; focus moves to the next cell only for a non-empty value before the last cell |
| OtpVerifyScreen.OtpEntry.HandleKeyPress | client/screens/OtpVerifyScreen.tsx:47-51 | focus moves back one cell exactly on backspace in an empty cell other than the first |
| OtpVerifyScreen.OtpEntry.HandleVerify | client/screens/OtpVerifyScreen.tsx:53-61 | an incomplete code alerts and leaves the session alone; a complete one signs in with `+91 ` and the phone and reports success |
| OtpVerifyScreen.OtpEntry.ButtonMatchesVerify | client/screens/OtpVerifyScreen.tsx:70 | the verify button is enabled exactly when verifying signs in |
| OtpVerifyScreen.OtpEntry.HandleResend | client/screens/OtpVerifyScreen.tsx:63-67 | the countdown restarts at 60, every cell is cleared, and an alert is shown |
| OtpVerifyScreen.OtpEntry.Tick | client/screens/OtpVerifyScreen.tsx:26-31 | the countdown drops by one while positive and never goes below zero; the cells do not change |
| OtpVerifyScreen.OtpEntry.ResendOnlyAtZero | client/screens/OtpVerifyScreen.tsx:120-130 | the resend link is offered exactly when the countdown is zero |
| OtpVerifyScreen.RunCountdown | client/screens/OtpVerifyScreen.tsx:26-31 | from 60 the timer fires exactly sixty times before the resend link is offered, leaving the code cells as they were |
| OtpVerificationModal.GenerateCode | client/components/OTPVerificationModal.tsx:39 | the code is between 100000 and 999999 |
| OtpVerificationModal.CodeString | client/components/OTPVerificationModal.tsx:39 | the code's string is six digits whose value is the code |
| OtpVerificationModal.Sanitize | client/components/OTPVerificationModal.tsx:95-98 | the result is the input's first six digits, or all its digits when it has fewer than six |
| OtpVerificationModal.SanitizeIdempotent | client/components/OTPVerificationModal.tsx:95-98 | sanitising twice is sanitising once |
| OtpVerificationModal.MaskedPhone | client/components/OTPVerificationModal.tsx:65 | all but the last four characters, then `****` |
| OtpVerificationModal.VerificationModal.constructor | client/components/OTPVerificationModal.tsx:31-34 | the modal starts with an empty input and code, not loading, no error |
| OtpVerificationModal.VerificationModal.Open | client/components/OTPVerificationModal.tsx:36-45 | becoming visible draws a fresh six-digit code and clears the input and the error |
| OtpVerificationModal.VerificationModal.OnChangeText | client/components/OTPVerificationModal.tsx:95-98 | the input becomes the sanitised text and the error is cleared |
| OtpVerificationModal.VerificationModal.HandleVerify | client/components/OTPVerificationModal.tsx:47-63 | a blank input sets the enter-OTP error; the generated code starts loading and is handed to `onVerify`; anything else sets the invalid-OTP error; `onVerify` only ever gets the generated code |
| OtpVerificationModal.VerificationModal.FinishLoading | client/components/OTPVerificationModal.tsx:56-59 | the delayed callback ends the loading state |
| OtpVerificationModal.VerificationModal.BlankMeansEmpty | client/components/OTPVerificationModal.tsx:48 | a sanitised input is blank only when empty, so the enabled button never hits the blank-input error |
| PhoneInputScreen.HandleSendOtp | client/screens/PhoneInputScreen.tsx:21-27 | exactly ten characters, of any kind, are passed on unchanged; anything else alerts |
| PhoneInputScreen.ButtonMatchesGuard | client/screens/PhoneInputScreen.tsx:80 | the button is enabled exactly when the handler sends, and a ten-character string with a letter is sent |
| RootStackNavigator.ScreenConditions | client/navigation/RootStackNavigator.tsx:50-77 | each screen's condition: splash first; language only when signed out without a choice; phone and OTP when signed out with a choice, by whether a phone is pending; main exactly when the splash is done and signed in |
| RootStackNavigator.RootNavigator.constructor | client/navigation/RootStackNavigator.tsx:24-26 | the app starts on the splash with no language choice and no phone |
| RootStackNavigator.RootNavigator.HandleSplashComplete | client/navigation/RootStackNavigator.tsx:28-30 | the splash is done; the other flags are unchanged |
| RootStackNavigator.RootNavigator.HandleLanguageContinue | client/navigation/RootStackNavigator.tsx:32-34 | the language is chosen; the splash flag is unchanged |
| RootStackNavigator.RootNavigator.HandleSendOtp | client/navigation/RootStackNavigator.tsx:36-38 | the phone is kept, and from the phone screen a non-empty phone leads to the OTP screen |
| RootStackNavigator.RootNavigator.HandleOtpVerified | client/navigation/RootStackNavigator.tsx:40-42 | the pending phone is cleared; the splash flag is unchanged |
| RootStackNavigator.RootNavigator.Back | client/navigation/RootStackNavigator.tsx:66 | back from the OTP screen clears the phone and shows the phone screen |
| RootStackNavigator.RootNavigator.HandleLogout | client/navigation/RootStackNavigator.tsx:44-48 | signs out, resets the language choice and the phone, so the language screen is next; bookings stay |
| RootStackNavigator.SignIn | client/navigation/RootStackNavigator.tsx:28-77 | splash, language, a ten-character phone and a complete code lead to the main screen, signed in with that phone, with the language chosen, the pending phone cleared, and the bookings and language unchanged |
| LocationPicker.JoinSplit | client/components/LocationPicker.tsx:166-169 | joining the comma-split pieces with commas gives back the description |
| LocationPicker.SplitSingle | client/components/LocationPicker.tsx:166-169 | a description splits into one piece exactly when it has no comma |
| LocationPicker.LabelsSplitAtFirstComma | client/components/LocationPicker.tsx:166-169 | the main label has no comma; the description is the main label alone without a comma, else main, comma, secondary |
| LocationPicker.ToSuggestion | client/components/LocationPicker.tsx:64-82 | id and description are kept; coordinates are the reply's, 0 where missing or when the details request failed |
| LocationPicker.Picker.constructor | client/components/LocationPicker.tsx:37-40 | the picker starts with the given text, no suggestions, not loading and hidden |
| LocationPicker.Picker.HandleInputChange | client/components/LocationPicker.tsx:42-103 | the text is taken and the list shown; a blank text or a missing key empties the suggestions with no request, otherwise a request starts |
| LocationPicker.Picker.ApplyReply | client/components/LocationPicker.tsx:59-97 | predictions become suggestions, mapped one by one, and the list is shown; no predictions or a failed request empty the list; loading ends |
| LocationPicker.Picker.HandleSelectSuggestion | client/components/LocationPicker.tsx:105-114 | the input becomes the description, the list is hidden and cleared, and the description and coordinates are passed on unchanged |

## Left out

- Distance: the haversine `calculateDistance` (client/screens/CalendarScreen.tsx:24-34) is floating-point trigonometry. It is the parameter `dist`, and only which points each leg uses is modelled.
- Network: `fetch`, `response.ok`, `response.json` and `Promise.all` in the location picker (client/components/LocationPicker.tsx:50-67) are foreign I/O. The replies are inputs (`Autocomplete`, `PlaceDetails`).
- LocationPicker.Picker.ApplyReply: replies to overlapping requests arriving out of order are not modelled; the reply applied is the one delivered.
- Randomness and timers:
  - `Math.random` is the parameter `u` of `GenerateCode`.
  - The modal's 500 ms `setTimeout` is split into `HandleVerify` and `FinishLoading`.
  - The countdown's `setTimeout` is one `Tick` per second.
  - The splash animation is not part of this model.
- CivilTime.DateLe: dates are compared by year, month and day, which is the order of `toISOString().split('T')[0]` only for years 0000 to 9999; `toISOString` writes other years as `+YYYYYY`/`-YYYYYY`, whose text order is not chronological. All dates in the app are four-digit years.
- Time zones: local time is taken to be UTC, so `toISOString` dates and local `getFullYear`/`getMonth`/`getHours` agree. With the device clock east of UTC, as in India, the source labels day cells and "today" by the UTC date; that skew is not modelled.
- Date formatting: `toLocaleDateString` and `toLocaleString` are presentation and are not part of this model.
- Floating point: acreage, coordinates and `total / count` are exact reals. Amounts are unbounded integers; JavaScript numbers lose precision above 2^53.
- AppContext.CompletionInstant: a `completedAt` that does not parse is not modelled, because instants are integers. An unparseable scheduled date gives no instant, which matches an invalid `Date` comparing false.
- CalendarScreen.ParseTime: only the canonical `HH:MM AM`/`HH:MM PM` shape is read. The comparator itself also orders labels without zero padding ("9:00 AM") and 24-hour labels ("14:00") after stripping " AM"/" PM"; it yields `NaN` only for a label without a numeric hours:minutes part. Every seeded label has the canonical shape and nothing in the app creates new labels, so the wider grammar is not modelled.
- CalendarScreen.SortedBookings: it requires every label to have the canonical shape, for the same reason; the comparator's ordering of other numeric labels is not modelled.
- Text.IsWhitespace: it covers the ASCII whitespace, no-break space, byte-order mark and line/paragraph separators. The other Unicode space separators that `trim` also removes are not modelled.
- Strings are sequences of characters; `slice` and `length` in the source count UTF-16 code units. They differ only outside the Basic Multilingual Plane.
- React plumbing: `useState`, `useMemo`, `useCallback`, context creation and `useApp`'s error outside the provider are not modelled. The focus index used only for cell styling (client/screens/OtpVerifyScreen.tsx:23) is left out too.
- Side effects: alerts, confirmations, `navigation.goBack` and focus moves are returned values.
- Not part of this model: the call button's `Linking.openURL` (client/screens/BookingDetailScreen.tsx:41-43) and the `console.log` of the code.
- OtpVerificationModal.VerificationModal.OnChangeText: it can be called while loading; the source disables the field then (`editable={!isLoading}`).
- The modal's error is held as its translation key, not the translated text.
- The translation file (client/constants/translations) and the mock seed data (client/context/AppContext.tsx:59-183) are not part of this model. The store takes the seed and the operator template as constructor arguments, and `T` takes the table as a parameter.
- Presentational and static files (theme, gradient, button, card, header, status badge, profile, language, help, support, policy and terms screens, splash) and the tab and stack navigator configuration are not part of this model.
