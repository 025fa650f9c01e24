# Farm tracker: alerts, analytics, herd filter and breeding rules

A Dafny model of the logic inside the farm tracker's React components. The components keep
goats, health records and breeding records in a remote store. The model covers what they
compute from those records:

- **Notification bell** (`NotificationBell`). `generateNotifications` turns Confirmed breeding
  records, health records with a next due date, and Bred breeding records into prioritised
  notifications. It sorts them by priority, then by due date, and summarises them for the
  badge. The three `forEach` loops are methods whose loop invariants tie the pushed array to a
  specification function. The sort is specified by its result: ordered by the comparator, a
  permutation, and stable.
- **Notification dashboard** (`NotificationDashboard`). `generateAlerts` does the same job with
  its own ranks (urgent, warning, info), its own pregnancy-check test and day units throughout.
  The "Urgent Actions" and "Due Soon" counts are modelled too. `AlertAgreement` relates the two
  generators.
- **Analytics** (`Analytics`). Head counts by gender, health and breeding status. The
  health-cost total, the count of records from the last thirty days, the mean weight with its
  "N/A" display, and the bar widths guarded against an empty herd.
- **Herd list** (`GoatTracker`). The `Tracker` class holds the component's state. `applyFilters`
  narrows the herd step by step: case-insensitive substring filters on tag and owner, then an
  exact filter on gender. It is proved equal to a one-pass filter by the conjunction of the
  active filters. Also modelled: `resetFilters`, and the health records handed to each goat's
  card.
- **Breeding** (`BreedingRules`, `BreedingStore`, `BreedingCard`, `BreedingModal`):
  - the doe and buck selects;
  - the 150-day due date;
  - `getDaysUntilDue`;
  - the status buttons each record offers;
  - the submit sequence: insert the record, and only then mark the doe Pregnant.

  The store is an in-memory class. Whether each of its writes fails is passed in as a
  parameter. The store logs its writes, so their order can be stated.

Time is an integer number of milliseconds, and the current time `now` is a parameter.
`Math.ceil(x / k)` is the exact integer ceiling `Dates.CeilDiv`. `toISOString().split('T')[0]`
is `Dates.DayStart`, the start of the UTC day. A message is modelled by what it interpolates
(`FarmTypes.Message`: the tag, the record title and the day count), not by its wording.

Behaviour worth noting:
- With no weighed goat the mean weight is `0`, and the card then shows "N/A" (`Analytics.AvgWeight`, `Analytics.ShowWeight`).
- The dashboard's pregnancy check fires once more than 29 whole days have passed. That is up to a day before the bell's, which needs 30 (`AlertAgreement.DashboardCheckDayEarly`).
- The pregnancy lifecycle is enforced only by the buttons each status offers. `updatePregnancyStatus` itself writes any status it is given (`BreedingCard.Card.UpdatePregnancyStatus`).

## Model

| member | source | states |
|---|---|---|
| Dates.DayStart | components/NotificationBell.tsx:138 | the date part of an ISO timestamp is a day boundary at or before the time, less than a day earlier |
| Dates.CeilDivNonPositive | components/NotificationBell.tsx:90-93 | a rounded-up quotient by any positive unit is ≤ 0 exactly when the dividend is ≤ 0, so "overdue" does not depend on the unit |
| Dates.CeilDivAtMost | components/NotificationBell.tsx:44-70 | the rounded-up day count is at most n exactly when the time difference is at most n days, which turns every window into a comparison of times |
| FarmTypes.FindGoat | components/NotificationBell.tsx:91 | `goats.find` returns the first goat with the id, and returns nothing exactly when no goat has it |
| StableSort.Sort | components/NotificationBell.tsx:146-152 | the sorted alerts are ordered by rank descending, then due date ascending; they are a permutation of the input; alerts tying on both keys keep their order |
| NotificationBell.BreedingDueAlert | components/NotificationBell.tsx:40-82 | only a Confirmed record with a due date yields a breeding notification, carrying its record id and due date, unread |
| NotificationBell.BreedingDueWindows | components/NotificationBell.tsx:44-82 | urgent iff due ≤ now; high iff now < due ≤ now + 3 days; medium iff 3 days < due − now ≤ 7 days; none beyond 7 days |
| NotificationBell.BreedingOverdueDays | components/NotificationBell.tsx:46-52 | an overdue birth's message gives the whole days elapsed since the due date |
| NotificationBell.BreedingOverdueTwoDays | components/NotificationBell.tsx:46-57 | a birth due two days ago gives one urgent notification saying 2 days |
| NotificationBell.HealthAlertIn | components/NotificationBell.tsx:86-120 | only a record with a next due date yields a health notification, carrying the goat id, the record id, the due date and the goat's tag if the goat exists |
| NotificationBell.HealthWindows | components/NotificationBell.tsx:86-120 | urgent iff due ≤ now, whatever the unit; high iff 0 < due − now ≤ 7 units; none beyond; whether the goat exists does not matter |
| NotificationBell.PregnancyCheckAlert | components/NotificationBell.tsx:123-143 | only a Bred record yields a pregnancy check, and it is high priority |
| NotificationBell.PregnancyCheckWindow | components/NotificationBell.tsx:123-142 | a record yields the check iff it is Bred and breeding date + 30 days ≤ now; the check is due on that day |
| NotificationBell.HealthHighHundredDaysOut | components/NotificationBell.tsx:90-118 | as written, a record due in 100 days is already high "due soon"; counted in days it yields nothing |
| NotificationBell.HealthCorrectedWindows | components/NotificationBell.tsx:90-118 | counted in days, a record is high iff due within the coming week, and an overdue one reports the whole days it is late |
| NotificationBell.PregnancyCheckMessageUndercounts | components/NotificationBell.tsx:128-136 | as written, a doe bred 35 days ago is reported as bred 30 days ago; the corrected count says 35 |
| NotificationBell.PregnancyCheckCorrectedDays | components/NotificationBell.tsx:128-136 | corrected, the message's day count is the whole days elapsed since the breeding |
| NotificationBell.PushBreedingDue | components/NotificationBell.tsx:40-83 | the loop appends exactly each record's breeding notification, in record order |
| NotificationBell.PushHealthDue | components/NotificationBell.tsx:86-120 | the loop appends exactly each record's health notification, in record order |
| NotificationBell.PushPregnancyChecks | components/NotificationBell.tsx:123-143 | the loop appends exactly each record's pregnancy check, in record order |
| NotificationBell.GenerateNotifications | components/NotificationBell.tsx:33-161 | the result is the stable sort of the three sections; it is a permutation of them, ordered by the comparator, at most one per record; the summary describes it |
| NotificationBell.NotificationsOrdered | components/NotificationBell.tsx:146-152 | every earlier notification compares ≤ 0 against every later one, and the sort keeps the multiset |
| NotificationBell.SortedByComparator | components/NotificationBell.tsx:146-152 | sorting by rank and due date orders any notifications by the source's comparator |
| NotificationBell.BreedingAlertsAtMostOne | components/NotificationBell.tsx:40-143 | a breeding record yields at most one notification across the two breeding sections |
| NotificationBell.Summarize | components/NotificationBell.tsx:155-160 | total is the length, unread equals total, urgent and high are the numbers of notifications of those priorities, and urgent + high ≤ total |
| NotificationBell.BadgeOf | components/NotificationBell.tsx:189-193 | the badge is hidden iff there are no notifications, reads 9+ iff there are more than 9, and otherwise shows the total |
| NotificationBell.BreedingDueIdsDetermineRecord | components/NotificationBell.tsx:48-72 | two breeding notifications with the same id come from records with the same id |
| NotificationBell.HealthIdForm | components/NotificationBell.tsx:95-108 | a health notification's id is its priority's prefix followed by the record id |
| NotificationBell.HealthIdsDetermineRecord | components/NotificationBell.tsx:95-108 | two health notifications with the same id come from records with the same id |
| NotificationBell.SectionInitials | components/NotificationBell.tsx:48-132 | ids of the three sections start with b, h and p respectively |
| NotificationBell.BreedingDueIdsDistinct | components/NotificationBell.tsx:40-83 | distinct record ids give distinct breeding notification ids |
| NotificationBell.HealthIdsDistinct | components/NotificationBell.tsx:86-120 | distinct record ids give distinct health notification ids |
| NotificationBell.PregnancyCheckIdsDistinct | components/NotificationBell.tsx:123-143 | distinct record ids give distinct pregnancy-check ids |
| NotificationBell.NotificationIdsDistinct | components/NotificationBell.tsx:33-161 | with record ids unique in each collection, every notification id in the sorted list is unique |
| NotificationDashboard.ConfirmedAlert | components/NotificationDashboard.tsx:39-77 | only a Confirmed record with a due date yields a birth alert, in the breeding category, carrying the due date and the doe's tag |
| NotificationDashboard.ConfirmedWindows | components/NotificationDashboard.tsx:39-76 | urgent iff due ≤ now; warning iff now < due ≤ now + 3 days; info iff 3 days < due − now ≤ 7 days; none beyond |
| NotificationDashboard.BredAlert | components/NotificationDashboard.tsx:80-96 | only a Bred record yields a pregnancy-check alert, a warning in the breeding category |
| NotificationDashboard.BredWindow | components/NotificationDashboard.tsx:80-95 | the alert appears iff the record is Bred and now − breeding date > 29 days, i.e. the rounded-up days reach 30; it is due on the day 30 days after the breeding |
| NotificationDashboard.HealthAlert | components/NotificationDashboard.tsx:100-130 | only a record with a next due date yields a health alert, carrying its due date and the goat's tag if the goat exists |
| NotificationDashboard.HealthWindows | components/NotificationDashboard.tsx:100-129 | urgent iff due ≤ now; warning iff now < due ≤ now + 7 days; none beyond; whether the goat exists does not matter (a missing goat's alert has no tag) |
| NotificationDashboard.BreedingAtMostOne | components/NotificationDashboard.tsx:39-96 | the Confirmed and Bred branches exclude each other, so a record yields at most one alert |
| NotificationDashboard.PushBreedingAlerts | components/NotificationDashboard.tsx:38-97 | the loop appends each record's birth alert, then its pregnancy-check alert, in record order |
| NotificationDashboard.PushHealthAlerts | components/NotificationDashboard.tsx:100-130 | the loop appends exactly each record's health alert, in record order |
| NotificationDashboard.GenerateAlerts | components/NotificationDashboard.tsx:33-142 | the result is the stable sort of the breeding and health alerts; it is a permutation of them, ordered by the comparator, at most one per record |
| NotificationDashboard.AlertsOrdered | components/NotificationDashboard.tsx:133-139 | every earlier alert compares ≤ 0 against every later one, and the sort keeps the multiset |
| NotificationDashboard.CountsWithinTotal | components/NotificationDashboard.tsx:164-165 | urgentCount + warningCount ≤ the number of alerts; adding the info alerts gives it exactly |
| NotificationDashboard.CountThreeCover | components/NotificationDashboard.tsx:164-165 | every alert is counted in exactly one of urgent, warning and info |
| AlertAgreement.BirthAlertsAgree | components/NotificationDashboard.tsx:39-76 | the bell and the dashboard flag the same Confirmed records: urgent for urgent, high for warning, medium for info; same day count and due date |
| AlertAgreement.BellCheckImpliesDashboardCheck | components/NotificationDashboard.tsx:80-95 | whenever the bell asks for a pregnancy check, the dashboard does too |
| AlertAgreement.DashboardCheckDayEarly | components/NotificationDashboard.tsx:82-84 | one millisecond past 29 days after the breeding, the dashboard alerts (saying 30 days) and the bell does not |
| AlertAgreement.CorrectedHealthAlertsAgree | components/NotificationBell.tsx:90-118 | counted in days, the bell's health notification matches the dashboard's health alert: urgent for urgent, high for warning, same message and due date |
| AlertAgreement.CorrectedPregnancyDaysAgree | components/NotificationBell.tsx:128-136 | the corrected day count matches the dashboard's for a whole number of days, and is otherwise one less |
| Analytics.GenderCountsCoverHerd | components/Analytics.tsx:13-15 | maleCount + femaleCount = totalGoats |
| Analytics.HealthCountsWithinHerd | components/Analytics.tsx:17-19 | healthy (or unset) + sick + under treatment ≤ total; the quarantined goats make up the rest |
| Analytics.BreedingCountsWithinHerd | components/Analytics.tsx:21-23 | pregnant + nursing + available (or unset) ≤ total; the retired goats make up the rest |
| Analytics.CostSumAppend | components/Analytics.tsx:25 | the cost total of two runs of records is the sum of their totals, so appending a record adds exactly its cost |
| Analytics.CostSumIgnoresUncosted | components/Analytics.tsx:25 | records without a cost add nothing |
| Analytics.RecentCountAppend | components/Analytics.tsx:26-28 | appending a record adds one to the recent count exactly when it is dated less than 30 days before now |
| Analytics.RecentCountMonotone | components/Analytics.tsx:26-28 | the recent count never grows as time moves on |
| Analytics.AvgWeight | components/Analytics.tsx:30 | with no weighed goat (absent or zero weight) the mean is 0 |
| Analytics.WeightSumBounds | components/Analytics.tsx:30 | weights all within [lo, hi] sum to between n·lo and n·hi |
| Analytics.WeightMeanBounds | components/Analytics.tsx:30 | the mean of weights all within [lo, hi] is within [lo, hi] |
| Analytics.AvgWeightBetween | components/Analytics.tsx:30 | the mean weight lies between the lightest and the heaviest weighed goat |
| Analytics.ShowWeight | components/Analytics.tsx:73 | the card shows "N/A" exactly when the mean is not positive, otherwise the mean |
| Analytics.AvgWeightExample | components/Analytics.tsx:30-73 | goats weighing 50 and 70 plus one unweighed give mean 60 over 2 weighed goats |
| Analytics.BarWidth | components/Analytics.tsx:109 | the width is 0 for an empty herd, otherwise it is the count's share of the total times 100 |
| Analytics.BarWidthInRange | components/Analytics.tsx:109-170 | a count within the herd gives a width between 0 and 100 |
| Analytics.ComputeAnalytics | components/Analytics.tsx:13-30 | the panel's figures satisfy the three count invariants, and the recent count is at most the number of records |
| Analytics.BarsInRange | components/Analytics.tsx:109-170 | every bar the panel draws is between 0 % and 100 % wide |
| GoatTracker.LowerChar | components/GoatTracker.tsx:80 | lower-casing maps A–Z to a–z, leaves every other character alone, and never yields an upper-case ASCII letter |
| GoatTracker.Lower | components/GoatTracker.tsx:80 | lower-casing keeps the length and lower-cases each character |
| GoatTracker.RecordsForGoat | components/GoatTracker.tsx:267 | a card gets exactly the records whose goat id is the goat's, in their order |
| GoatTracker.Tracker.constructor | components/GoatTracker.tsx:20-31 | the component starts with no goats, no records and empty filters |
| GoatTracker.Tracker.ApplyFilters | components/GoatTracker.tsx:75-95 | filtering by each active filter in turn shows exactly the goats that every active filter accepts, in herd order; nothing else changes |
| GoatTracker.Tracker.ResetFilters | components/GoatTracker.tsx:102-104 | the three filters become empty and nothing else changes |
| GoatTracker.Tracker.SetFilters | components/GoatTracker.tsx:41-43 | a filter change is followed by refiltering the current herd |
| GoatTracker.Tracker.SetGoats | components/GoatTracker.tsx:41-53 | a newly loaded herd is refiltered with the current filters |
| GoatTracker.NoFiltersShowAll | components/GoatTracker.tsx:76-94 | with all filters empty the list is the whole herd |
| GoatTracker.FilteredIsSubsequence | components/GoatTracker.tsx:79-94 | the list is an order-preserving subsequence of the herd, hence no longer than it |
| GoatTracker.FilteredSound | components/GoatTracker.tsx:78-92 | every goat shown contains the tag and owner filters (ignoring case) and has the filtered gender |
| GoatTracker.FilteredComplete | components/GoatTracker.tsx:75-95 | every goat of the herd that passes each active filter is shown |
| GoatTracker.FilterIgnoresCase | components/GoatTracker.tsx:78-88 | typing the tag or owner filter in another case shows the same list |
| GoatTracker.ResetShowsAll | components/GoatTracker.tsx:102-104 | after a reset and the refiltering that follows, the whole herd is shown |
| BreedingRules.DoesBucksPartition | components/BreedingCard.tsx:27-28 | does are exactly the females and bucks exactly the males, each in herd order, and together they split the herd |
| BreedingRules.ExpectedDueDate | components/BreedingCard.tsx:57-68 | the stored due date is a day boundary within a day of breeding date + 150 days |
| BreedingRules.ExpectedDueDateOfDay | components/BreedingModal.tsx:33-43 | for a breeding date given as a day, the due date is exactly 150 days later |
| BreedingRules.DaysUntilDueNonPositive | components/BreedingCard.tsx:122-128 | days-until-due is ≤ 0 exactly when the due date has come |
| BreedingRules.DaysUntilDueWholeDays | components/BreedingCard.tsx:122-128 | a due date exactly n days ahead gives n |
| BreedingRules.DaysShown | components/BreedingCard.tsx:173-180 | the day count is shown iff the record is Confirmed and has a due date, and it is that date's days-until-due |
| BreedingRules.TransitionsMoveForward | components/BreedingCard.tsx:191-215 | Bred offers Confirmed and Failed, Confirmed offers Birthed; every button moves strictly forward; Failed and Birthed offer none |
| BreedingRules.TransitionRunsAreShort | components/BreedingCard.tsx:191-215 | any chain of offered buttons has at most two clicks |
| BreedingRules.NotesToStore | components/BreedingCard.tsx:69 | empty notes are stored as null, other notes as they are |
| BreedingStore.SetBreedingStatus | components/BreedingCard.tsx:76-79 | every goat with the id gets the new breeding status; no other field and no other goat changes |
| BreedingStore.SetPregnancyStatus | components/BreedingCard.tsx:100-103 | every record with the id gets the new pregnancy status; nothing else changes |
| BreedingStore.StoredRecord | components/BreedingCard.tsx:62-71 | a new record starts out Bred with the computed due date |
| BreedingStore.RefOf | components/BreedingCard.tsx:38-42 | the joined goat columns are absent exactly when no goat has the id, otherwise they carry its tag |
| BreedingStore.Joined | components/BreedingCard.tsx:34-46 | each fetched record carries its doe's and buck's columns, in the store's order |
| BreedingStore.SetBreedingStatusMarks | components/BreedingCard.tsx:75-79 | after the update every goat with the doe's id reads Pregnant, and repeating it changes nothing |
| BreedingStore.Store.InsertBreeding | components/BreedingCard.tsx:62-73 | a successful insert appends the record and logs it; a failed one changes nothing |
| BreedingStore.Store.UpdateBreedingStatus | components/BreedingCard.tsx:76-79 | a successful update sets the goat's status and logs it; a failed one changes nothing |
| BreedingStore.Store.UpdatePregnancyStatus | components/BreedingCard.tsx:100-105 | a successful update sets the record's status and logs it; a failed one changes nothing |
| BreedingStore.Store.FetchBreedingRecords | components/BreedingCard.tsx:36-46 | the fetch returns exactly one record per stored record (their joined contents are stated by `BreedingStore.Joined`) |
| BreedingStore.RecordBreeding | components/BreedingCard.tsx:56-79 | the doe is marked Pregnant only after the insert succeeded; the writes are logged as insert then doe update; a failed insert writes nothing |
| BreedingStore.RecordedBreeding | components/BreedingCard.tsx:57-79 | the stored record is Bred and due 150 days after the chosen day, with null notes iff they were empty; no goat but the doe changes |
| BreedingCard.EmptyForm | components/BreedingCard.tsx:82-88 | the reset form has no doe, buck or notes and today's date |
| BreedingCard.Card.constructor | components/BreedingCard.tsx:15-24 | the card starts with no records, the form closed and empty |
| BreedingCard.Card.FetchBreedingRecords | components/BreedingCard.tsx:34-50 | the card's list becomes the store's joined records |
| BreedingCard.Card.HandleSubmit | components/BreedingCard.tsx:52-96 | on success: the record is stored, the doe is marked, the store logs exactly the insert then the doe update (only the insert when the doe update fails), the form is closed and reset, the list is reloaded and the parent is told; on a failed insert: nothing is written, the form stays, an error shows |
| BreedingCard.Card.UpdatePregnancyStatus | components/BreedingCard.tsx:98-110 | on success the record's status is written, the store logs exactly that one write and the list is reloaded; on failure an error shows and nothing in the store or the list changes |
| BreedingCard.SubmitMarksDoe | components/BreedingCard.tsx:73-89 | after a successful submit the doe reads Pregnant and the new record is listed as Bred, with no day count shown |
| BreedingModal.InitialForm | components/BreedingModal.tsx:16-21 | the selected goat is pre-filled as the doe if female and as the buck if male; the other side is empty |
| BreedingModal.ExactlyOnePrefilled | components/BreedingModal.tsx:17-26 | for a goat with an id, exactly one side is pre-filled, and it is an option of the matching select |
| BreedingModal.Modal.constructor | components/BreedingModal.tsx:15-22 | the modal opens with the pre-filled form |
| BreedingModal.Modal.HandleSubmit | components/BreedingModal.tsx:28-62 | insert, then the doe update, then onSuccess, then onClose, in that order: each call records the store writes made before it, which include the insert and, when it succeeded, the doe update; a failed insert calls neither callback and writes nothing |

## Left out

- Supabase: the store is an in-memory class. Whether a write fails is a parameter. The error messages, `auth.getUser` and `created_by` are not modelled.
- Fetch failures and the store's ordering of query results (`order('breeding_date')`, `order('created_at')`) are not modelled. A fetch returns the stored records in insertion order.
- Date parsing and formatting, time zones, and the local-time `setDate(getDate() + 150)` with its daylight-saving shifts: dates are UTC milliseconds, and a day is always 86 400 000 ms. Unparsable date strings are not modelled.
- Floating point: weights, costs and percentages are Dafny `real`s. IEEE rounding, `NaN` weights and costs, and `toFixed` formatting are not modelled.
- Message wording: messages are modelled by what they interpolate (tag, title, day count). Titles and dashboard action texts are exact.
- `toLowerCase` lower-cases only the ASCII letters. Other Unicode case mappings are not modelled.
- Display only, not modelled: colours, icons, JSX, `getPriorityColor`, `getTypeIcon`, `getAlertStyle`, `getAlertIcon`, `getStatusColor`, `toLocaleDateString`, and the bell's open/close state.
- The JavaScript sort engine is specified by its result: ordered by the comparator, a permutation, and stable.
- The notification types `vaccination_overdue` and `checkup_reminder`, and the `low` priority, are declared but never produced. The unused `oneWeek` and `twoWeeks` constants are left out.
- The HTML `required` check on the doe and buck selects is not modelled. `HandleSubmit` accepts whatever the form holds.
- The card form's unused `expectedDueDate` field is left out. So are the `Offspring` type, `number_of_kids` entry and `actual_birth_date`.
- GoatCard, GoatForm, HealthCard and the app pages (auth redirects, photo uploads, form parsing) are not part of this model.
- The parent's `onUpdate` and `fetchGoats` re-fetch are modelled only as a counter of calls, and the bell's notification list only as the generator's result.
- BreedingStore.StoredRecord: a new record's status is taken to be Bred, the table's default. The insert does not set it, and the table definition is not part of this model.

## Findings

| source | as written | input that shows it | evidently intended | confidence | as-written member | corrected member |
|---|---|---|---|---|---|---|
| components/NotificationBell.tsx:90 | health due dates are counted in units of 1000 hours (`1000*60*60*1000`), so "due soon" covers 7000 hours (about 292 days) and the day counts in messages are in 1000-hour units | a vaccination whose next due date is 100 days from now gets a high "Vaccination Due Soon" notification | days (`1000*60*60*24`), as for breeding alerts and in the dashboard: high only within 7 days | high (not executed) | NotificationBell.HealthHighHundredDaysOut | NotificationBell.HealthCorrectedWindows |
| components/NotificationBell.tsx:128 | the message computes `abs(daysUntilCheck + 30)` with `daysUntilCheck` counted in 1000-hour units: the wrong unit makes `daysUntilCheck` about 0 for weeks, and adding 30 rather than subtracting the (negative) days left keeps the figure near 30 whatever the elapsed time | a doe bred 35 days ago is reported as "bred 30 days ago" | the days since breeding, i.e. 30 − `daysUntilCheck` with `daysUntilCheck` in whole days, giving 30 − (−5) = 35 (fixing only the unit would give abs(−5 + 30) = 25) | high (not executed) | NotificationBell.PregnancyCheckMessageUndercounts | NotificationBell.PregnancyCheckCorrectedDays |
