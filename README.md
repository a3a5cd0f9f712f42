# Learning log: finance report, calendar cell and month navigation, in Dafny

This project models the computational core of the learning-log web app. That app is a personal
diary and finance tracker built on Django, with a little browser JavaScript. It models four parts:

- **The finance dashboard** (`expenses` view) and the finance summary on the home page (`index`
  view). Income, expenses and balance are summed over the owner's records for the current
  month. The daily spending limit is checked. A rule-based list of Swahili advisories is built.
  The dashboard also has a 7-day expense series and the per-category labels and totals of the pie chart.
  In the model these are pure functions (`FinanceReport`). The view methods build them step by
  step and are proved equal to them (`FinanceViews`).
- **The record store.** The finance tables are fields of a `FinanceStore` class:
  - the goal row is fetched with get-or-create;
  - the two delete views remove a row only when the requester owns it.
- **The diary calendar's day cell** (`XCalendar.formatday`). It renders one `<td>` from the
  user's entries on that day (`Calendar`).
- **The diary page's month navigation** (`updateNavButtons`, and the month recovery in the drop
  handler) and the new-entry modal's date-time value (`Diary`).

Amounts are integer cents. Every amount column is `DecimalField(decimal_places=2)`, so the
Decimal comparisons become exact integer comparisons:

- `balance < income * 0.1` is `10 * balance < income`;
- `balance > income * 0.3` is `10 * balance > 3 * income`;
- `recurring_total > salary * 0.5` is `2 * recurring_total > salary`.

Database queries are filters over in-memory sequences of owner-tagged records:

- a `filter(...)` is `Seqs.Filter` with a named row predicate;
- `aggregate(Sum(...)) or 0` is `Seqs.SumBy`;
- `order_by` is `Seqs.SortBy`, an insertion sort on an integer key;
- a primary key is a `DistinctBy` key.

Dates are proleptic Gregorian `(year, month, day)` triples (`Dates`).

Files:

- `wrappers.dfy`: `Option`.
- `seqs.dfy`: the query operators and their lemmas.
- `digits.dfy`: Python's `str()` and `f"{n:02d}"` on integers, and their inverse.
- `dates.dfy`: dates, timestamps, previous and next day.
- `models.dfy`: the record types, the choices and the column domains.
- `report.dfy`: the dashboard and the home-page summary as functions, with their properties.
- `views.dfy`: the store class and the view methods.
- `calendar.dfy`: the calendar day cell.
- `diary.dfy`: the navigation arithmetic and the date input.

## Model

| member | source | states |
|---|---|---|
| Models.ParseCategory | learning_logs/models.py:28-35 | accepts exactly the six declared category values, each as itself, and rejects every other string |
| Models.CategoryRoundTrip | learning_logs/models.py:28-39 | every category is stored as its own value, fits `max_length=20`, and reads back as itself |
| Models.CategoriesComplete | learning_logs/models.py:28-35 | the choice list names every category exactly once |
| Models.ParseFrequency | learning_logs/models.py:67-72 | accepts exactly Daily, Weekly, Monthly and Yearly, and rejects every other string |
| Models.FrequencyRoundTrip | learning_logs/models.py:67-77 | every frequency is stored as its own value, fits `max_length=20`, and reads back as itself |
| Models.DefaultsAreChoices | learning_logs/models.py:76-77 | the default category is Mengineyo and the default frequency is Monthly ("Kila Mwezi"); both are declared choices |
| Models.AmountDigits | learning_logs/models.py:38 | an amount lies in the column's domain exactly when its magnitude in cents has at most 10 digits |
| Models.NewGoal | learning_logs/models.py:57-61 | a new goal row belongs to its owner and has salary, daily estimate, savings goal and daily limit all 0 |
| Models.NewGoalValid | learning_logs/models.py:58-61 | the default goal lies in the columns' domains |
| Models.EntryStr | learning_logs/models.py:23-25 | the entry's string is the text (cut to its first 50 characters when longer) followed by "...", so its length is 3 to 53 |
| FinanceReport.DailyLimitStatus | learning_logs/views.py:206-209 | the status is Exceeded exactly when the limit is positive and today's total exceeds it; a limit of 0 or less always gives Good |
| FinanceReport.DailyStatusRule | learning_logs/views.py:206-209 | the report's `today_expenses` is the owner's total on today's date, and its status is Exceeded exactly when a positive limit is below that total |
| FinanceReport.TodayIsOwnersDayTotal | learning_logs/views.py:199-206 | filtering the month's rows to today gives the owner's rows dated today |
| FinanceReport.SuggestionRules | learning_logs/views.py:215-231 | the list is never empty and follows rule order. It has at most one of overspent, low savings and healthy savings. Each advisory is present exactly when its rule holds (the if/elif precedence for the first three; the daily-budget and recurring-bills rules independently). The generic message appears only alone, exactly when no rule fired |
| FinanceReport.SavingsVerdict | learning_logs/views.py:216-221 | the if/elif chain of the three savings advisories; `SavingsVerdictRules` states its rules |
| FinanceReport.Suggestions | learning_logs/views.py:214-231 | the advisory list; `SuggestionRules` states its rules |
| FinanceReport.SavingsVerdictRules | learning_logs/views.py:216-221 | the if/elif chain picks at most one savings verdict: overspent exactly when the balance is negative, low savings exactly when its rule holds, healthy savings exactly when its rule holds, and none otherwise |
| FinanceReport.AssembleReport | learning_logs/views.py:187-249 | the dashboard from its query results; `FinanceViews.BuildReport` computes it by assignments and appends |
| FinanceReport.FinancialReport | learning_logs/views.py:177-267 | the dashboard's context; `ReportSeesOnlyOwnRows`, `ReportListings`, `DailyStatusRule`, `ChartSeries` and `PieChart` state its properties |
| FinanceReport.ReportSeesOnlyOwnRows | learning_logs/views.py:183-249 | the report computed from the owner's rows alone equals the report computed from the whole database, so other owners' records never contribute |
| FinanceReport.NoRowsThisMonth | learning_logs/views.py:187-203 | with no income or expense of the owner this month, total income is the salary, expenses and today's total are 0, the balance is the salary, and the expense list and the pie are empty |
| Dates.DaysBefore | learning_logs/views.py:234 | `d - timedelta(days=n)` is a valid date, strictly before d when n > 0 |
| FinanceReport.ChartDays | learning_logs/views.py:234 | the seven chart days; `ChartDaysConsecutive` states their order |
| FinanceReport.ChartData | learning_logs/views.py:236-239 | the per-day totals; `ChartSeries` states what each is |
| FinanceReport.ChartDaysConsecutive | learning_logs/views.py:234 | the chart has 7 valid dates ending today, each the day after the previous one, oldest first |
| FinanceReport.ChartSeries | learning_logs/views.py:234-239 | there are 7 data points. Each is the owner's expense total on that calendar day over all records, with no month restriction. The last point equals today's expenses |
| FinanceReport.Groups | learning_logs/views.py:242-246 | a group is present exactly for a category among the rows, carrying that category's total |
| FinanceReport.BreakdownProperties | learning_logs/views.py:242-249 | there is one group per category the month's rows use, with that category's total. Categories are distinct, totals are non-increasing, and the totals add up to the month's expense total |
| FinanceReport.Breakdown | learning_logs/views.py:242-246 | the month's rows grouped by category, largest total first; `BreakdownProperties` states its properties |
| FinanceReport.PieLabels | learning_logs/views.py:248 | one label per group, in order, each reading back as the group's category |
| FinanceReport.PieData | learning_logs/views.py:249 | one number per group, in order, each the group's total, adding up to the groups' total |
| FinanceReport.PieChartOf | learning_logs/views.py:242-249 | a label is present exactly for each category the rows use, and no label appears twice. Each number is its label's category total. The numbers do not increase and add up to the rows' total |
| FinanceReport.PieChart | learning_logs/views.py:242-249 | the dashboard's `pie_labels` and `pie_data` have those properties over the owner's rows of the month, and the numbers add up to the report's `total_expenses` |
| FinanceReport.ReportListings | learning_logs/views.py:199-212 | the listed expenses are a permutation of the owner's rows of the month, newest first, and add up to the month's total. The recurring bills are a permutation of the owner's bills, earliest due first |
| FinanceReport.IndexSummaryOf | learning_logs/views.py:36-62 | the finance part of the home page; `IndexAgreesWithReport` states its properties |
| FinanceReport.IndexAgreesWithReport | learning_logs/views.py:36-62 | the home page shows the same income, expenses and balance as the dashboard. It shows the reminder, as its only notification, exactly when the owner has no expense dated today |
| FinanceReport.ExampleHealthySavings | learning_logs/views.py:187-231 | salary 500000 with one 50000 expense: income 500000, balance 450000, status Good, advisories [healthy savings] |
| FinanceReport.ExampleOverspent | learning_logs/views.py:215-217 | no salary and one 1000 expense: balance -1000 and advisories [overspent] only |
| FinanceReport.ExampleChartCrossesMonth | learning_logs/views.py:234-239 | on 2 March 2024 a 29 February expense is charted on the fifth day but is not in the month's total |
| FinanceViews.CheckDailyLimit | learning_logs/views.py:207-209 | the assigned status equals the daily-limit rule |
| FinanceViews.BuildSuggestions | learning_logs/views.py:215-231 | the list built by successive appends is the advisory list whose rules `SuggestionRules` proves |
| FinanceViews.BuildChartData | learning_logs/views.py:236-239 | the loop appends, in order of the days, the owner's total for each day |
| FinanceViews.BuildReport | learning_logs/views.py:191-231 | the figures, daily status and advisories computed by assignments and appends from the query results are the report `AssembleReport` gives for those results |
| FinanceViews.Dashboard | learning_logs/views.py:187-249 | the view's computation, once the goal row is known, yields exactly the report `FinancialReport` |
| FinanceViews.ReportGoalOnly | learning_logs/views.py:183-196 | the report depends on the goal table only through the user's own goal, so inserting a default goal does not change it |
| FinanceViews.FinanceStore.Valid | learning_logs/models.py:27-77 | ids are unique in each table, the goal table holds at most one goal per owner (the one-to-one key), and every row lies in its columns' domains; every store method keeps it |
| FinanceViews.FinanceStore.GetOrCreateGoal | learning_logs/views.py:183 | returns the stored goal, or inserts and returns a default goal owned by the user. It reports `created` exactly when none existed and changes no other goal row |
| FinanceViews.FinanceStore.Expenses | learning_logs/views.py:177-267 | after the goal's get-or-create, returns the report of the database as it was before the call |
| FinanceViews.FinanceStore.Index | learning_logs/views.py:32-71 | an anonymous visitor gets no summary and no write. A signed-in user gets the home-page summary after the goal's get-or-create |
| FinanceViews.FinanceStore.DeleteExpense | learning_logs/views.py:301-307 | returns 404 exactly when no expense has that id. The row is removed only when the requester owns it (then exactly one row goes). Otherwise the table is unchanged, and every other row is kept either way |
| FinanceViews.FinanceStore.DeleteRecurringExpense | learning_logs/views.py:355-361 | the same guard and frame for recurring bills |
| FinanceViews.DeleteExpenseKeepsOtherReports | learning_logs/views.py:304-307 | deleting one of the requester's expenses leaves every other user's dashboard unchanged |
| FinanceViews.DeleteRecurringKeepsOtherReports | learning_logs/views.py:358-361 | deleting one of the requester's recurring bills leaves every other user's dashboard unchanged |
| FinanceViews.ValidStoreListings | learning_logs/views.py:199-212 | on a store with valid rows, the dashboard's expenses are newest first and its bills earliest due first |
| Calendar.XCalendar.constructor | learning_logs/utils.py:6-11 | the calendar keeps its year, month and user |
| Calendar.XCalendar.FormatDay | learning_logs/utils.py:13-42 | the cell accumulated entry by entry is the specified day cell; day 0 gives the fixed empty cell |
| Calendar.DayCell | learning_logs/utils.py:13-42 | the day cell; `EmptyCellFixed`, `OtherEntriesIgnored`, `ActiveIffEntries`, `PillAt` and `DateAttrRoundTrip` state its properties |
| Calendar.EmptyCellFixed | learning_logs/utils.py:17-18 | the padding cell for day 0 does not depend on year, month, user or entries |
| Calendar.OtherEntriesIgnored | learning_logs/utils.py:20-25 | an entry of another user, or of another year, month or day, changes nothing in the cell, wherever it sits in the table |
| Calendar.ActiveIffEntries | learning_logs/utils.py:27-35 | the cell is marked active, and has an events block, exactly when the user has an entry on that day; otherwise the class is plain and the block empty |
| Calendar.PillsAppend | learning_logs/utils.py:36-39 | the pills of two runs of entries are the two runs of pills, one after the other |
| Calendar.PillAt | learning_logs/utils.py:36-40 | one pill per entry in input order: the i-th entry's pill sits right after the pills of the entries before it |
| Calendar.PillCarriesEntry | learning_logs/utils.py:39 | a pill has the title attribute and body equal to the entry's title, and a `data-entry-id` that parses back to the entry's id |
| Calendar.Pill | learning_logs/utils.py:39 | one event pill; `PillCarriesEntry` states where its title and id sit |
| Calendar.Lower | learning_logs/utils.py:38 | `lower()` on ASCII; `LowerShape` states it character by character |
| Calendar.LowerShape | learning_logs/utils.py:38 | same length; each upper-case letter becomes its lower-case letter and every other character is kept; no upper-case letter is left, and lower-casing twice is lower-casing once |
| Calendar.MoodClass | learning_logs/utils.py:38 | the pill's colour class; `MoodClassShape` states its shape |
| Calendar.MoodClassShape | learning_logs/utils.py:38 | no mood gives `event--default`. Otherwise the class is `event--` followed by exactly the lower-cased mood, with no upper-case letter. Lower-casing the mood first changes nothing |
| Calendar.DateAttr | learning_logs/utils.py:31 | the `data-date` value; `DateAttrRoundTrip` states that it parses back |
| Calendar.DateAttrRoundTrip | learning_logs/utils.py:31 | `data-date` is the year, a dash, the 2-digit month, a dash and the 2-digit day; parsing it gives back the date |
| Digits.Pad2RoundTrip | learning_logs/utils.py:31 | `{n:02d}` of 0..99 is two digits that read back as n |
| Diary.NewDate | learning_logs/static/js/diary.js:60-61 | a JS month start always has a month index in 0..11 and denotes the same absolute month as its arguments |
| Diary.PrevMonth | learning_logs/static/js/diary.js:60-68 | the previous button's year and month; `PrevMonthStep` and `NavMonthsInRange` state them |
| Diary.NextMonth | learning_logs/static/js/diary.js:61-72 | the next button's year and month; `NextMonthStep` and `NavMonthsInRange` state them |
| Diary.PrevMonthStep | learning_logs/static/js/diary.js:60 | for a month in 1..12, "previous" is the month before, or December of the year before for January |
| Diary.NextMonthStep | learning_logs/static/js/diary.js:61 | for a month in 1..12, "next" is the month after, or January of the year after for December |
| Diary.NavMonthsInRange | learning_logs/static/js/diary.js:60-72 | the months written to the buttons are always in 1..12, and "next" is two months after "previous" |
| Diary.NavButtons.UpdateNavButtons | learning_logs/static/js/diary.js:54-74 | each present button gets the year and month of the previous or next month as decimal strings; a missing button is left alone |
| Diary.ParseInt | learning_logs/static/js/diary.js:322-323 | `parseInt` on the integers the page writes; `ParseIntToString` states that it reads them back |
| Diary.ParseIntToString | learning_logs/static/js/diary.js:322-323 | a number written to a data attribute is read back by `parseInt` as itself |
| Diary.CurrentFromPrev | learning_logs/static/js/diary.js:322-324 | the month after the one written on the previous button; `RecoverInvertsPrev` states that it undoes `PrevMonth` |
| Diary.NavButtons.CurrentView | learning_logs/static/js/diary.js:320-326 | without the previous button the handler throws and fetches nothing. Otherwise it re-fetches the previous button's month plus one, with 13 wrapping to January of the next year |
| Diary.RecoverInvertsPrev | learning_logs/static/js/diary.js:320-324 | recovering from the buttons written for (y, m) gives back (y, m) |
| Diary.TwoDigitYearShift | learning_logs/static/js/diary.js:60 | with year 50 shown, "previous" points to May 1950, so recovery yields June 1950 |
| Diary.SliceFive | learning_logs/static/js/diary.js:195 | `slice(0, 5)` keeps the first five characters, or the whole of a shorter string |
| Diary.TimeSliceIsHourMinute | learning_logs/static/js/diary.js:195 | the first five characters of a time string are `HH:MM` |
| Diary.DateInputValue | learning_logs/static/js/diary.js:191-196 | the modal's date-time value; `DateInputRoundTrip` states its shape |
| Diary.DateInputRoundTrip | learning_logs/static/js/diary.js:191-196 | the input value is the cell's date, "T" and `HH:MM`. It splits at its first "T" back into that date, which parses to the day, and that time |

## Left out

- The Django ORM, `render`, `redirect` and `login_required` are not modelled. Queries are filters over sequences, and a delete view's response is either 404 or the redirect.
- The signed-in user and `timezone.now()` are parameters.
- One calendar is used both for the `__year`/`__month`/`__date` lookups and for `now.date()`. Time-zone conversion is not modelled.
- The atomicity of `get_or_create` is not modelled, because it is a storage concern.
- The `float()` conversion of chart and pie values is not modelled: the values stay exact.
- The `strftime('%a %d')` chart labels are not modelled, because they depend on the locale.
- Ties in `order_by` are broken by the model's insertion sort, which keeps the earlier element first. This covers equal timestamps, equal due dates, and equal category totals under `order_by('-total')` (views.py:246); equal totals come out in the order `Categories` declares. The database leaves that order unspecified.
- Dates may have any integer year. Python's range of years 1 to 9999, and the overflow of `timedelta` at its ends, are not modelled.
- `HTMLCalendar.formatmonth` and the `int()` conversions in `XCalendar.formatmonth` (utils.py:44-49) are not modelled. The library call is not visible, and the calendar's fields are already integers.
- `utils.py` reads `owner`, `event_date`, `mood` and `title` on `Entry`, but `Entry` in models.py has none of these. The cell is modelled over its own `CalendarEntry` record with exactly those fields.
- Calendar.Lower: lower-cases the ASCII letters only; Python's full Unicode `str.lower()` is not modelled.
- Calendar.MoodClass: an absent mood (`None`) is not modelled separately; it is represented as the empty string.
- Calendar.FormatDay: titles and moods go into the cell without HTML escaping, as the source does. The model states nothing about the markup's well-formedness.
- Diary.ParseInt: reads an optional minus sign followed by digits, and gives None where `parseInt` gives NaN. Leading whitespace, a `+` sign and trailing text are not modelled, because the page only writes integers to these attributes.
- Diary.NavButtons.UpdateNavButtons: takes the current year and month as integers, so the `parseInt` of its arguments (diary.js:57-58) is not modelled; `ParseIntToString` covers the values the page itself writes.
- Diary.RecoverInvertsPrev: holds only for years outside 0 to 99, because JS `new Date` maps those years to 1900 to 1999 (TwoDigitYearShift shows the shift).
- Diary.PrevMonthStep and Diary.NextMonthStep: these also hold only for years outside 0 to 99, for the same reason.
- The JS Date time-value range and local time-zone effects are not modelled. The page only reads the year and month of the first day of a month.
- All DOM, fetch, timer, localStorage, FileReader and Cropper code is not modelled, because it is UI and I/O only. The same goes for theme-toggle.js, mobile-menu.js and form-animations.js.
- The `dashboard`, `topics` and recent-topics parts of the views are not modelled: they are queries and rendering outside the finance core.
- The form-driven create and edit views are not modelled, because their form validation is external.
- users/, forms.py, urls.py and admin.py are not modelled: they are configuration and authentication wrappers.
- views.py:177-267 computes no savings-progress figure, so none is modelled.
- The 7-day query at views.py:238 is not restricted to the current month, and neither is the model (ExampleChartCrossesMonth).
