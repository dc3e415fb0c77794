# Attendance engine of the QR attendance app

The app records employee punches: a `check-in`, `check-out`, `lunch-start` or
`lunch-end` on a date, at a time, by scanning a QR code. This project models
the code that interprets those punches:

- the two log filters;
- the two aggregators of daily worked hours, which disagree with each other;
- the service's all-dates total;
- the irregularity classifier, which compares each day with a department's
  schedule;
- the administrator page's roster roll-up, report filters, log enrichment and
  settings map;
- the History page's read-back of the daily texts into a grand total;
- the QR payload mapper and the scan-acceptance guard;
- `getInitials`.

Modules, file by file:

| file | module | models |
|---|---|---|
| `common.dfy` | `Common` | `Option`, `filter`, stable sort by a key, JS `%` (`JsRem`) and `Math.max(0, _)` |
| `text.dfy` | `Text` | whitespace, `trim`, ASCII case mapping, decimal digits, string `<` |
| `clock.dfy` | `Clock` | `HH:MM[:SS]` times: `timeToMinutes`, seconds of the day, `localeCompare` order |
| `attendance.dfy` | `Attendance` | the punch record, the shared filter predicate, grouping by date (`logsByDate`) |
| `helpers.dfy` | `Helpers` | the utilities' `filterLogs`, `getTodayLogs`, `getLatestLog`, `formatTime`, the minutes formatter and `calculateWorkHours` |
| `helpers_hours.dfy` | `HelpersHours` | the utilities' `calculateDailyWorkHoursMap` |
| `irregularities.dfy` | `Irregularities` | the utilities' `identifyTimeIrregularities` |
| `service.dfy` | `Service` | the data service's `filterLogs`, `calculateWorkHours`, `calculateDailyWorkHoursMap` |
| `admin.dfy` | `Admin` | the administrator page |
| `history.dfy` | `History` | the History page |
| `qrscanner.dfy` | `QrScanner` | the QR scanner component |
| `initials.dfy` | `Initials` | `getInitials` |

Loops and state take the source's form:

- Code that loops over mutable variables is a `method` with a `while` loop. Its
  `ensures` ties the result to a specification function, and the properties are
  proved about that function as lemmas. This covers the grouping into
  `logsByDate`, both aggregators, the classifier, the roster roll-up, the
  settings map and the total read-back.
- The History page and the QR scanner keep state between calls. Each is a
  `class` whose methods update its fields.

Model decisions:

- **Time.** A time is a well-formed `HH:MM` or `HH:MM:SS` text. Within one date,
  `new Date(date + "T" + time)` orders and subtracts like the time's seconds of
  the day.
- **Instants across dates.** An instant on another date needs the calendar. A
  parameter `epochDay` gives a date's day number.
- **Dictionaries.** A JavaScript object keyed by date is a sequence of
  `(date, value)` pairs in key-insertion order.

Three behaviours of the code a reader might not expect; the model follows the code:

- The utilities' `calculateDailyWorkHoursMap` does not clamp a segment at zero.
- Its lunch-start sets the on-break flag even when no segment is open
  (`HelpersHours.LunchStartAlwaysBreaks`).
- The classifier's short-day test skips a day already flagged for a missing
  check-out. That test can never fire: a short day needs a check-out, and a
  missing-check-out row needs none. `Irregularities.ShortDayIff` proves that
  the two rows never occur together.

## Model

| member | source | states |
|---|---|---|
| Text.ToUpper | src/lib/utils.ts:12-15 | `toUpperCase` keeps the length and upper-cases each ASCII letter in place |
| Text.ToLower | src/components/QRScanner.tsx:14 | `toLowerCase` keeps the length and lower-cases each ASCII letter in place |
| Text.TrimFacts | src/lib/utils.ts:10 | `trim` leaves a text that neither starts nor ends with whitespace. The result is empty exactly when the input is all whitespace. It is the input's middle, and only whitespace follows it |
| Text.TrimPadded | src/components/QRScanner.tsx:14 | trimming any whitespace off both sides of an unpadded text gives that text back |
| Text.TrimAllSpaces | src/lib/utils.ts:9-10 | a whitespace-only text trims to the empty text |
| Text.TrimUnpadded | src/lib/utils.ts:10 | a text that is not all whitespace trims to a non-empty text with no whitespace at either end |
| Text.ToLowerPadded | src/components/QRScanner.tsx:14 | lower-casing a padded text lower-cases the middle and leaves the whitespace padding unchanged |
| Text.ParseNatToString | src/pages/History.tsx:98-99 | `parseInt` of a number's decimal text gives the number back |
| Text.StrLtTotal | src/utils/helpers.ts:48-53 | two different date texts are ordered one way or the other by string `<` |
| Text.StrLtTransitive | src/services/supabaseService.ts:630-634 | string `<` on dates is transitive |
| Attendance.StrLeTransitive | src/services/supabaseService.ts:630-634 | string `<=`, written as "not `>`", is transitive |
| Attendance.DateBoundsSelectInterval | src/services/supabaseService.ts:626-640 | the inclusive date bounds select an interval: a log of the same employee and type dated between two selected logs is selected too |
| Clock.Minutes | src/utils/helpers.ts:180-184 | `timeToMinutes` of a well-formed time is a minute of the day, below 24*60 |
| Clock.Seconds | src/utils/helpers.ts:378 | a time's offset within its date is below a day |
| Clock.MinutesOfSeconds | src/utils/helpers.ts:180-184 | `timeToMinutes` is the time's seconds divided by 60, rounded down: seconds are dropped |
| Clock.LexKeyOrdersLikeText | src/services/supabaseService.ts:659 | the `localeCompare` order of two time texts is the order of their `LexKey`, in both directions |
| Clock.LexKeyMonotone | src/services/supabaseService.ts:705 | a time earlier in text order is never later in seconds |
| Attendance.DatesOf | src/utils/helpers.ts:215-221 | every log's date is a key of the grouping |
| Attendance.DatesOfDistinct | src/services/supabaseService.ts:692-698 | each date is a key once |
| Attendance.OnDateMembers | src/services/supabaseService.ts:692-698 | a date's bucket holds exactly the logs of that date |
| Attendance.OnDateNonEmpty | src/utils/helpers.ts:363-368 | every key's bucket is non-empty |
| Attendance.TabulateSnoc | src/services/supabaseService.ts:702-760 | the map over the first i + 1 dates is the map over the first i dates followed by the entry of the i-th date and its value |
| Attendance.GroupByDate | src/services/supabaseService.ts:692-698 | `logsByDate`: its keys are the distinct dates in order of first occurrence, and each key maps to exactly that date's logs in input order |
| Helpers.FilterLogsSelects | src/utils/helpers.ts:36-60 | the chain of filters keeps, in order, exactly the logs of the employee within the non-empty bounds and of the selected type |
| Helpers.GetTodayLogs | src/utils/helpers.ts:4-7 | the result is a subsequence of the logs. It holds exactly the employee's logs dated today, every copy of each and nothing else |
| Helpers.GetLatestLog | src/utils/helpers.ts:9-19 | returns none exactly when the employee has no log. Otherwise it returns one of the employee's logs |
| Helpers.GetLatestLogIsLatest | src/utils/helpers.ts:14-18 | no log of the employee is later than the result. Every earlier log of the employee in input order is strictly earlier, so ties keep the first |
| Helpers.LatestByIsFirstGreatest | src/utils/helpers.ts:14-18 | the reduce returns the first element with the greatest key |
| Helpers.FormatTime | src/utils/helpers.ts:102-107 | `formatTime` returns a prefix of its input |
| Helpers.FormatTimeOfTimeText | src/utils/helpers.ts:102-107 | for a well-formed time, `formatTime` gives `HH:MM`, a well-formed time with the same minute of the day |
| Helpers.FormatMinutesReadsBack | src/utils/helpers.ts:187-195 | a negative count shows "0 dakika". Otherwise the digits shown read back as the whole hours (at least one, shown only from an hour on) and the 0 to 59 minutes left over, which add up to the count |
| Helpers.PairedSecondsBounds | src/utils/helpers.ts:70-80 | the stride-2 pairing counts between zero and the time from the first punch to the last |
| Helpers.CalculateWorkHours | src/utils/helpers.ts:62-87 | the text shows the paired check-in/check-out seconds of the logs in instant order, as whole hours and the whole minutes left over |
| Helpers.PairedTotal | src/utils/helpers.ts:71-80 | the stride-2 loop adds, for each pair at positions (0, 1), (2, 3), ... that is a check-in then a check-out, the time between them: the paired seconds of the sorted logs |
| HelpersHours.DayTotal | src/utils/helpers.ts:373-414 | the inner loop ends with the total of the day's walk |
| HelpersHours.DayEntry | src/utils/helpers.ts:371-423 | sorting a day's bucket and walking it gives that date's entry |
| HelpersHours.CalculateDailyWorkHoursMap | src/utils/helpers.ts:359-426 | one entry per distinct date, in order of first occurrence, each holding that date's text |
| HelpersHours.FillDays | src/utils/helpers.ts:370-424 | the loop over the grouped dates writes, for each date in order, the entry holding the text of that date's logs |
| HelpersHours.BreakHasNoOpenSegment | src/utils/helpers.ts:386-392 | while on break no segment is open |
| HelpersHours.BreakCountsNothing | src/utils/helpers.ts:380-412 | from a lunch-start until a lunch-end nothing is counted: check-ins are ignored, check-outs add nothing, and the break goes on |
| HelpersHours.LunchStartAlwaysBreaks | src/utils/helpers.ts:386-392 | a lunch-start always starts the break and closes the segment, even with no segment open, and adds nothing when none was open |
| HelpersHours.LunchStartBeforeCheckIn | src/utils/helpers.ts:380-397 | a lunch-start before the day's first check-in makes the day count nothing, with no segment open, until a lunch-end |
| HelpersHours.NoCheckInNoTime | src/utils/helpers.ts:377-414 | a day without check-ins opens no segment and counts nothing |
| HelpersHours.OnlyCheckInOpens | src/utils/helpers.ts:393-404 | lunch-end never opens a segment: without a check-in, a closed state stays closed and counts nothing |
| HelpersHours.OpenSegmentDropped | src/utils/helpers.ts:405-416 | time is counted only when a segment is closed: trailing check-ins and lunch-ends add nothing, so a segment left open at day's end is dropped |
| HelpersHours.WalkBounded | src/utils/helpers.ts:371-414 | on a day in time order, the walk's total and open segment lie within the day's span |
| HelpersHours.WalkTotalBounds | src/utils/helpers.ts:371-414 | on a day in time order, the total lies between zero and the time from the first punch to the last |
| HelpersHours.DayTextFacts | src/utils/helpers.ts:418-423 | the day shows "Hesaplanamadı" exactly when nothing was counted. Otherwise it shows the formatted whole minutes. A day without check-ins always shows "Hesaplanamadı" |
| Service.FilterLogsSelects | src/services/supabaseService.ts:625-643 | the filter keeps, in input order, exactly the logs matching employee, inclusive non-empty date bounds and type, every copy of each |
| Service.NoEmployeeKeepsNothing | src/services/supabaseService.ts:627 | with an absent employee id nothing is kept |
| Service.SameAsHelpersFilter | src/services/supabaseService.ts:625-643 | for a given employee, the service filter and the utilities' filter chain return the same list |
| Service.DayMinutes | src/services/supabaseService.ts:710-755 | the `forEach` over a day's sorted punches ends with the total of the day's walk |
| Service.DayEntry | src/services/supabaseService.ts:703-760 | sorting a day's bucket by time text and walking it gives that date's entry |
| Service.CalculateDailyWorkHoursMap | src/services/supabaseService.ts:691-764 | one entry per distinct date, in order of first occurrence, each holding "{h} saat {m} dakika" of that day's walk. There is no sentinel |
| Service.FillDays | src/services/supabaseService.ts:702-761 | the loop over the grouped dates writes, for each date in order, the entry holding the text of that date's walk |
| Service.DailyWalkNonNegative | src/services/supabaseService.ts:728 | every segment is clamped at zero, so a day's total is never negative |
| Service.ClosingWithoutOpenIsIgnored | src/services/supabaseService.ts:726-753 | lunch-starts and check-outs with no open segment change nothing |
| Service.OpeningPunchRestarts | src/services/supabaseService.ts:719-744 | a check-in or lunch-end opens a segment at its own time, drops any pending lunch and keeps the total, whatever came before |
| Service.OpeningPunchesKeepTotal | src/services/supabaseService.ts:719-744 | after a run of check-ins and lunch-ends the total is unchanged, no lunch is pending and the open segment starts at the last of them |
| Service.DayTextShows | src/services/supabaseService.ts:758-760 | a day's text shows its whole hours and the minutes left over, 0 to 59 |
| Service.SortedByTime | src/services/supabaseService.ts:705 | a day sorted by time text is sorted by time of day |
| Service.DailyWalkBounded | src/services/supabaseService.ts:719-754 | on a day in time order, counted minutes and the open segment lie within the day's span |
| Service.DayMinutesBounds | src/services/supabaseService.ts:705-755 | every date's total is non-negative, fits within the span of its punches, and is below a day |
| Service.AddDayMinutes | src/services/supabaseService.ts:658-681 | one day's `forEach` adds that day's walk total, as written, to the running minutes |
| Service.CalculateWorkHours | src/services/supabaseService.ts:645-688 | the text shows the sum over all dates of each day's walk as written, as hours and JS-remainder minutes. What that walk counts is stated by Service.AsWrittenNeverUnder, Service.CheckOutsRecount and Service.LunchEndReopens |
| Service.SumAllDays | src/services/supabaseService.ts:657-682 | the loop over the dates adds up each date's walk, as written, over its logs in time order |
| Service.ClosingWalkIsDailyWalk | src/services/supabaseService.ts:663-680 | with a check-out that closes its segment, the total's walk counts exactly what the daily map's walk counts |
| Service.ClosingTotalIsDailySum | src/services/supabaseService.ts:676-679 | corrected total: over any dates, it equals the sum of the daily map's minutes |
| Service.CheckOutCountedTwice | src/services/supabaseService.ts:676-679 | as written, a check-in at 09:00 with check-outs at 12:00 and 13:00 counts 420 minutes. The corrected walk and the daily map count 180 |
| Service.AsWrittenNeverUnder | src/services/supabaseService.ts:663-680 | on a day in time order the walk as written counts at least the daily map's minutes, and while the daily walk has a segment open the walk as written has the same one open |
| Service.AsWrittenTotalNeverUnder | src/services/supabaseService.ts:645-688 | over any dates, the total as written is at least the sum of the daily map's minutes |
| Service.CheckOutsRecount | src/services/supabaseService.ts:676-679 | as written, after a segment opened at c, a run of check-outs keeps it open at c and each one adds the whole minutes since c |
| Service.LunchEndReopens | src/services/supabaseService.ts:673-675 | a lunch-end sets the open segment to its own time, whatever came before, and adds nothing |
| Service.LunchDayInHelpers | src/utils/helpers.ts:377-414 | on the day "in 09:00, lunch 12:00-13:00, out 18:00", the utilities' walk counts only the 3 hours before lunch |
| Service.LunchDayInService | src/services/supabaseService.ts:719-754 | on the same day the service's walk counts 8 hours |
| Service.AggregatorsDisagree | src/services/supabaseService.ts:691-764 | the two daily maps show "3 saat 0 dakika" and "8 saat 0 dakika" for the same day |
| Irregularities.MissingCheckOutRow | src/utils/helpers.ts:241-263 | at most one row, of type missing check-out, for the date, name and department |
| Irregularities.LateRow | src/utils/helpers.ts:265-276 | at most one late-arrival row for the date, name and department |
| Irregularities.EarlyRow | src/utils/helpers.ts:278-289 | at most one early-departure row for the date, name and department |
| Irregularities.LunchRow | src/utils/helpers.ts:291-327 | the lunch branches are exclusive: at most one row, either a long break or a missing break record |
| Irregularities.ShortRow | src/utils/helpers.ts:329-354 | at most one short-day row for the date, name and department |
| Irregularities.DayRecordsShape | src/utils/helpers.ts:241-354 | at most four rows per date, all for that date, the resolved name and the department |
| Irregularities.RecordsOfDatesDated | src/utils/helpers.ts:223-355 | every row is dated with one of the walked dates |
| Irregularities.NoRowsOnLaterDate | src/utils/helpers.ts:336-340 | before a date is walked, no row carries that date |
| Irregularities.RecordsOfDatesNamed | src/utils/helpers.ts:225 | with a name given, every row carries that name and the given department |
| Irregularities.ClassifyNamed | src/utils/helpers.ts:225-354 | with a name given, every row of the classifier carries that name and department |
| Irregularities.RecordsOfDatesSnoc | src/utils/helpers.ts:223-355 | walking one more date appends exactly that date's rows |
| Irregularities.ClassifyDay | src/utils/helpers.ts:224-354 | one iteration of the date loop appends that date's rows to what was there |
| Irregularities.PushMissingCheckOut | src/utils/helpers.ts:241-263 | appends the missing-check-out row, if any |
| Irregularities.PushLateArrival | src/utils/helpers.ts:265-276 | appends the late-arrival row, if any |
| Irregularities.PushEarlyDeparture | src/utils/helpers.ts:278-289 | appends the early-departure row, if any |
| Irregularities.PushLunch | src/utils/helpers.ts:291-327 | appends the lunch row, if any |
| Irregularities.PushShortDay | src/utils/helpers.ts:329-354 | appends the short-day row, if any. When the earlier rows hold no missing check-out for this date, the `some` test over them agrees with the day's own rows |
| Irregularities.ActualWorkDuration | src/utils/helpers.ts:329-333 | the working time is first check-in to last check-out, less first lunch start to last lunch end when both exist |
| Irregularities.NoMissingCheckOutAppend | src/utils/helpers.ts:336-340 | rows of other types keep the date free of missing-check-out rows |
| Irregularities.IdentifyTimeIrregularities | src/utils/helpers.ts:197-357 | the result is the classification of the logs. It is empty whenever a schedule time is missing or empty |
| Irregularities.DayLogsFacts | src/utils/helpers.ts:215-224 | a date's list holds exactly the logs of that date, in minute-of-day order |
| Irregularities.OfTypeMembers | src/utils/helpers.ts:227-235 | a kind's list is non-empty exactly when the day has a punch of that kind. Its first and last entries are punches of the day |
| Irregularities.OfTypeEnds | src/utils/helpers.ts:232-235 | on a sorted day, the first of a kind is no later than, and the last no earlier than, every punch of that kind |
| Irregularities.OfTypeBounds | src/utils/helpers.ts:227-235 | the facts of the two lemmas above together |
| Irregularities.LateArrivalIff | src/utils/helpers.ts:265 | a late arrival is reported exactly when there is a check-in and every check-in is after the start of work, minute for minute |
| Irregularities.EarlyDepartureIff | src/utils/helpers.ts:278 | an early departure is reported exactly when there is a check-out and every check-out is before the end of work, minute for minute |
| Irregularities.MissingCheckOutIff | src/utils/helpers.ts:241-251 | a missing check-out is reported exactly when there are check-ins, no check-out, and the date is past or it is today after the end of work |
| Irregularities.LongBreakIff | src/utils/helpers.ts:291-304 | a long break needs both lunch markers. With both, it is reported exactly when last end minus first start exceeds the scheduled lunch |
| Irregularities.MissingBreakIff | src/utils/helpers.ts:305-327 | a missing break record is reported exactly when one lunch marker kind occurs and the other does not |
| Irregularities.LunchTakenSpansMarkers | src/utils/helpers.ts:292 | the measured lunch is the widest span from a lunch-start to a lunch-end |
| Irregularities.ShortDayIff | src/utils/helpers.ts:329-354 | a short day needs a check-in and a check-out. With both, it is reported exactly when the worked minutes fall short of the expected day. It never occurs with a missing check-out |
| Irregularities.WorkedSpansPunches | src/utils/helpers.ts:330-333 | the worked minutes, with the lunch added back, are the widest span from a check-in to a check-out |
| Irregularities.RowsOfDate | src/utils/helpers.ts:223-355 | the rows carrying a given date are exactly that date's rows, or none when it has no logs |
| Irregularities.DayRecordsOnDate | src/utils/helpers.ts:241-354 | a date's rows all carry that date |
| Admin.FirstWhere | src/pages/Admin.tsx:262 | `find`: none when nothing matches. Otherwise the first match |
| Admin.IndexByKeys | src/pages/Admin.tsx:193-196 | a department id is a key of the settings map exactly when some setting carries it |
| Admin.IndexByLastWins | src/pages/Admin.tsx:193-196 | the map holds the last setting with each id |
| Admin.BuildSettingsMap | src/pages/Admin.tsx:193-196 | the `forEach` builds the keyed index of the settings |
| Admin.SettingsMapFacts | src/pages/Admin.tsx:194-195 | a setting with a non-empty department id that no later setting repeats is stored under that id |
| Admin.SettingsMapSkipsUnset | src/pages/Admin.tsx:195 | settings without a department id are not stored |
| Admin.Enrich | src/pages/Admin.tsx:180-189 | enrichment keeps the length and order of the logs and each log itself |
| Admin.EnrichUnknown | src/pages/Admin.tsx:184-186 | a log of an unknown employee gets "Bilinmiyor", "Atanmamış" and no department id |
| Admin.EnrichKnown | src/pages/Admin.tsx:179-186 | a log of a known employee gets that employee's name and department, or the defaults when they are empty |
| Admin.Named | src/pages/Admin.tsx:265-272 | the classifier's input keeps each of the employee's logs in order, with the employee's name |
| Admin.EmployeeIrregularities | src/pages/Admin.tsx:250-289 | one roster iteration gives the employee's rows: none when skipped, otherwise the classification of their logs |
| Admin.CalculateIrregularities | src/pages/Admin.tsx:241-293 | the roll-up is the concatenation, in roster order, of each employee's rows. It is empty when employees, logs, departments or settings are empty |
| Admin.ConcatMapAppend | src/pages/Admin.tsx:288 | concatenating per-employee results distributes over splitting the roster |
| Admin.SkippedEmployeeIsInvisible | src/pages/Admin.tsx:250-264 | removing a skipped employee from the roster does not change the report |
| Admin.EmployeeRowsNamed | src/pages/Admin.tsx:282-287 | every row of an employee with a name carries that name and the name of the employee's department |
| Admin.OtherLogsDoNotMatter | src/pages/Admin.tsx:258 | another employee's log does not change an employee's rows |
| Admin.FilterReportSelects | src/pages/Admin.tsx:303-321 | the filtered report is a subsequence of the report, and keeps exactly the rows both filters accept |
| Admin.FilterReportAll | src/pages/Admin.tsx:306-318 | with department "all" and no type selected, the report is shown whole |
| Admin.FilterReportDropsUnknown | src/pages/Admin.tsx:312-313 | under a department filter, a row whose employee is not on the roster is dropped |
| Admin.ToggleMembers | src/pages/Admin.tsx:327-331 | toggling flips the membership of that type and leaves every other type as it was |
| Admin.ToggleTwice | src/pages/Admin.tsx:327-331 | toggling an absent type twice restores the selection |
| Admin.AdminFilterIsServiceFilter | src/pages/Admin.tsx:333-338 | the page's filter is the service filter on the logs, with "all" passed as an absent employee |
| Admin.AllEmployeesShowsNothing | src/pages/Admin.tsx:335 | as written, filtering for all employees lists nothing |
| Admin.IntendedFilterSelects | src/pages/Admin.tsx:335 | corrected filter: "all" keeps every log within the bounds and type. A chosen employee gives what the page gives |
| Admin.AllEmployeesCounterexample | src/pages/Admin.tsx:335 | one unfiltered log: the page lists nothing, the corrected filter lists it |
| History.DigitRun | src/pages/History.tsx:96 | `\d+` takes the longest digit run |
| History.SpaceRun | src/pages/History.tsx:96 | `\s*` takes the longest whitespace run |
| History.MatchLaidOut | src/pages/History.tsx:96-99 | a text laid out as digits, " saat ", digits, " dakika" matches with the values of the two digit groups |
| History.DayTextLayout | src/pages/History.tsx:96 | a text built as A, " saat ", B, " dakika" holds A at its start, then one space, "saat", one space, B, one space and "dakika", with nothing after |
| History.MatchDigitsText | src/pages/History.tsx:96-99 | the pattern reads both numbers back out of "A saat B dakika" |
| History.MatchHoursMinutesText | src/pages/History.tsx:96-99 | the pattern reads h and m back out of the formatter's "h saat m dakika" |
| History.NoDigitsNoMatch | src/pages/History.tsx:96-97 | a text without digits does not match, so it adds nothing |
| History.DayTextReadsBack | src/pages/History.tsx:95-101 | a service day's text reads back as exactly its minutes |
| History.SumParsedIsDailySum | src/pages/History.tsx:95-101 | the read-back total of the service map is the sum of the daily minutes |
| History.ConsistentTotal | src/pages/History.tsx:93-109 | on the service map of a list of logs, the total is "{H} sa {M} dk" of the daily sum. "Hesaplanamadı" is never shown |
| History.TotalTextShows | src/pages/History.tsx:102-108 | when the sentinel's condition fails, the text is "{H} sa {M} dk" of the total |
| History.HistoryPage.constructor | src/pages/History.tsx:46-57 | the initial load lists every fetched log and sets the map to the service map of them |
| History.HistoryPage.HandleFilterChange | src/pages/History.tsx:78-91 | without an employee id nothing changes. Otherwise the listed logs become the service filter of all logs, and the map is recomputed from them |
| History.HistoryPage.DisplayTotalWorkHours | src/pages/History.tsx:93-109 | the loop reads each map text back and sums the minutes. On a consistent page the result is "{H} sa {M} dk" of the listed logs' daily sum |
| QrScanner.WordKind | src/components/QRScanner.tsx:15-18 | only the four kind texts, "entry" and "exit" are recognised, each as its kind |
| QrScanner.KindOfText | src/components/QRScanner.tsx:22-24 | a JSON type is accepted only as the exact text of a kind |
| QrScanner.KindOfTextRoundTrip | src/components/QRScanner.tsx:23 | every kind's text is accepted as that kind |
| QrScanner.WordsIgnoreCaseAndPadding | src/components/QRScanner.tsx:14-18 | a recognised word, in any ASCII case and with any whitespace around it, maps without consulting the JSON parser |
| QrScanner.WordOfKindText | src/components/QRScanner.tsx:15-18 | each kind's own text is a recognised word |
| QrScanner.KindTextsMap | src/components/QRScanner.tsx:14-18 | "check-in"/"entry", "check-out"/"exit", "lunch-start" and "lunch-end", in any case and padding, map to their kinds |
| QrScanner.JsonTypeMaps | src/components/QRScanner.tsx:19-29 | any other payload maps to a kind exactly when its JSON `type`, lower-cased, is a kind's text. It then maps to that kind |
| QrScanner.MappedKindIsNamed | src/components/QRScanner.tsx:13-30 | a mapped kind is always named by the payload's text or by its JSON type |
| QrScanner.JsonTypeIsNotTrimmed | src/components/QRScanner.tsx:22 | a JSON type starting with whitespace maps to nothing |
| QrScanner.RefusedTable | src/components/QRScanner.tsx:83-92 | allowed: anything but a check-in after a check-in, only a check-in after a check-out, anything after lunch punches or with no punch |
| QrScanner.OutcomeAccepts | src/components/QRScanner.tsx:81-98 | a scan is accepted exactly when its payload maps to a kind the latest punch does not refuse. An unmappable payload is always the invalid-code result |
| QrScanner.Scanner.constructor | src/components/QRScanner.tsx:39-41 | starts inactive, with no result and nothing forwarded |
| QrScanner.Scanner.OnDecoded | src/components/QRScanner.tsx:76-98 | a cancelled callback changes nothing. Otherwise the camera stops and the result is shown. The scan is forwarded exactly when accepted |
| Initials.FirstSpace | src/lib/utils.ts:10 | the position of the first whitespace character, none before it |
| Initials.SplitSpaces | src/lib/utils.ts:10 | `split(/\s+/)` always yields at least one piece |
| Initials.SplitWord | src/lib/utils.ts:10 | a word without whitespace splits into itself |
| Initials.SplitAfterWord | src/lib/utils.ts:10 | a word followed by a whitespace run splits off as the first piece |
| Initials.SplitJoin | src/lib/utils.ts:10 | splitting words joined by whitespace runs gives the words back |
| Initials.SplitUnpadded | src/lib/utils.ts:10-11 | a trimmed, non-empty text splits into non-empty pieces only |
| Initials.GetInitials | src/lib/utils.ts:8-21 | the initials are one or two characters, never empty |
| Initials.BlankNameShowsQuestionMark | src/lib/utils.ts:9-20 | a whitespace-only name gives "?" |
| Initials.OneWordInitials | src/lib/utils.ts:11-13 | one word, however padded, gives its first min(2, length) characters upper-cased |
| Initials.ManyWordsInitials | src/lib/utils.ts:14-16 | several words, however padded and spaced, give the first letters of the first and last word upper-cased |
| Initials.PiecesGiveInitials | src/lib/utils.ts:10-16 | when the trimmed name splits into two or more words with non-empty ends, the initials are the upper-cased first letters of the first and last word |
| Initials.NonBlankNameUsesItsWords | src/lib/utils.ts:11-20 | a name that is not blank is always served by the first two tests, so the third test is never reached |

## Left out

- Initials.GetInitials: counts Unicode characters where JavaScript indexes UTF-16 code units. For a name starting with a character outside the Basic Multilingual Plane (an emoji, say), `names[0][0]` and `substring(0, 2)` cut a surrogate pair in half; the model keeps the whole character, so its one or two characters are not the source's code units.
- Supabase queries, authentication, storage, toasts, loading flags, `setTimeout` and `console` output: they are I/O and presentation.
- The wall clock: today's date and the current minute are parameters of the classifier and of `getTodayLogs`. The source mixes UTC `toISOString` with local `getHours`; the model does not.
- `new Date` parsing and time zones: a time is a well-formed `HH:MM[:SS]` text, and dates are compared as strings. Across dates, a day-number function `epochDay` stands in for the calendar.
- `JSON.parse` in the QR mapper is the parameter `parseType`. It is a partial function giving the string `type` of the parsed object, if any.
- Case mapping is ASCII only. `\s` and `trim` know the ASCII whitespace plus U+00A0, U+FEFF, U+2028 and U+2029, not every Unicode space.
- `parseInt` on very long digit runs loses precision in JavaScript. The model's integers are exact.
- The report row's `details` prose is built as in the source. No lemma states anything about it.
- Irregularities.LateArrivalIff: states when each row type is reported, not the `actual`/`expected`/`duration` texts it carries. The same holds for Irregularities.EarlyDepartureIff, Irregularities.LongBreakIff, Irregularities.MissingBreakIff, Irregularities.MissingCheckOutIff and Irregularities.ShortDayIff.
- Admin.FilterReportSelects: states membership and order of the filtered report, not multiplicity of duplicate rows.
- Admin.CalculateIrregularities: the re-run on tab changes and the clearing outside the reports tab are React effect scheduling, not modelled.
- The default schedule shown in the settings form (`src/pages/Admin.tsx:198-206`, `225-238`) is form state only; it never reaches the classifier.
- `avatar_url` in the enriched logs is presentation only.
- The scan result's message texts are represented by the `ScanResult` cause they report. The camera start and stop are represented by the `isActive` flag.
- `getDeviceInfo`, `getIpAddress`, `formatDate`, `getStatusColor`, `getStatusText` and `cn`: environment or presentation.

## Findings

| source | as written | input that shows it | evidently intended | confidence | as-written member | corrected member |
|---|---|---|---|---|---|---|
| src/services/supabaseService.ts:676-679 | a check-out adds the minutes since the open check-in but leaves the check-in open | check-in 09:00, check-out 12:00, check-out 13:00 on one date: total 420 minutes | a check-out closes its segment, as the daily map does (180 minutes) | not executed | Service.CheckOutCountedTwice | Service.ClosingTotalIsDailySum |
| src/pages/Admin.tsx:335 with src/services/supabaseService.ts:627 | "all employees" is passed as an absent employee id, which the service filter never matches | any log, with the employee filter on "all" and no other bounds: the list is empty | "all" keeps the logs of every employee within the date bounds and type | not executed | Admin.AllEmployeesShowsNothing | Admin.IntendedFilterSelects |
