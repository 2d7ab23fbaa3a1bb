# HabitTwin analytics engine in Dafny

This project models the analytics and scoring core of HabitTwin, a Flask app that tracks habits and digital wellbeing, and proves properties of it. The core is the set of calculations over a user's rows: habit completion logs and per-app screen-time logs. These produce:

- streaks, completion rates and daily averages;
- wellbeing and weekly-report scores with their bands;
- recommendation and suggestion lists, leaderboards and chatbot answers.

Around the calculations sit the small stateful rules of the app:

- the achievement grant loop, which never grants an achievement twice;
- the one-log-per-day, one-limit-per-app and one-active-detox-plan upserts;
- owner-only delete, toggle and deactivate;
- the digital twin's streak step.

How the app's world is represented:

- **Dates** are day ordinals (`int`). The `Calendar` module is a small proleptic Gregorian calendar that maps a civil date to its ordinal and back. It is used for the month arithmetic of the habit calendar.
- **Query results** are input sequences of records (`Habit`, `HabitLog`, `ScreenTimeLog`, `AppLimit`, `DetoxPlan`, `DigitalTwin`, `Achievement`).
  - Where a modelled route orders rows by date descending, the model sorts them newest first with a stable sort. Habit logs are sorted in `Models.CompletedDates`, `Dashboard.RecentWeekLogs` and `Insights.LastTenLogs`. Screen-time logs are sorted in `Wellbeing.NewestFirst`, which the usage dashboard and the detox suggestions tally from.
  - Rows of the same date keep their input order.
  - `Habits.DateLogs` takes a habit's logs in any order. With one log per habit, user and day (`Habits.OneLogPerDayCount`), `next(...)` finds the same log whatever the order.
- **Today and random draws** are parameters. The current date, the twin's uniform draw, the new twin's drawn rate and streak, and `random.choice` picks are all passed in.
- **Python dicts** are association lists in insertion order (`Tally` for sums, `GroupOf` for lists of values). This keeps `max()` and the stable `sorted()` faithful on ties.
- **Floats** are exact reals.
  - `int()` of a float is truncation toward zero (`Numerics.Trunc`).
  - `round()` is round-half-to-even (`Numerics.RoundHalfEven`).
  - `//` by a positive divisor is Dafny's `/`.
- **Stateful parts** are classes whose methods update fields of type `seq` or `set`. Their postconditions state the new state as a function of the old one:
  - `Models.ScreenTimeStore`, the ScreenTime table;
  - `Gamification.GrantStore`, the user's achievement rows;
  - `Habits.HabitStore`, habits, logs and twins;
  - `Wellbeing.AppLimitStore`;
  - `Wellbeing.DetoxStore`.

The modules follow the source:

| Module | Source it follows |
|---|---|
| `Models` | `app/models.py` |
| `Criteria`, `Gamification`, `Leaderboard` | `app/gamification/routes.py` |
| `Insights` | `app/insights/routes.py` |
| `Habits` | `app/habits/routes.py` |
| `Chatbot` | `app/chatbot/routes.py` |
| `Wellbeing` | `app/wellbeing/routes.py` |
| `Dashboard` | `app/main/routes.py` |
| `HabitStreaks` | the longest-streak loop shared by several routes |
| `Numerics`, `Text`, `Lists`, `Tally`, `Sorting` | the Python built-ins the routes use, each with its properties |

## Model

| member | source | states |
|---|---|---|
| Numerics.Trunc | app/insights/routes.py:81 | `int()` of a float truncates toward zero: the result is within 1 of x on the side of 0 |
| Numerics.RoundHalfEven | app/chatbot/routes.py:355 | `round()` gives an integer within 0.5 of x, and the even one on a tie |
| Numerics.TruncMonotone | app/insights/routes.py:81 | truncation never reverses the order of two reals |
| Numerics.RoundMonotone | app/chatbot/routes.py:355 | rounding never reverses the order of two reals |
| Numerics.RoundInRange | app/main/routes.py:61 | a rounded percentage that lies between two integers stays between them |
| Numerics.FloorDivision | app/models.py:140 | Python's `a // d` for d > 0 is the floor of the true quotient |
| Text.Lower | app/chatbot/routes.py:15 | `lower()` on ASCII text: each letter A-Z becomes its lower-case letter and every other character is kept, so the length is kept |
| Text.StripMeaning | app/chatbot/routes.py:11 | `strip()` gives the slice s[i..j] that neither starts nor ends with whitespace, where everything before i and from j on is whitespace |
| Text.Split | app/gamification/routes.py:26 | `split(':')` gives at least one part, and no part holds the separator |
| Text.SplitJoin | app/gamification/routes.py:26 | joining the parts of a split with the separator gives back the string |
| Text.NatToString | app/gamification/routes.py:317 | `str(n)` of a natural number is a non-empty string of digits |
| Text.ParseIntToString | app/gamification/routes.py:28 | `int(str(n)) == n` for every integer |
| Lists.Filter | app/main/routes.py:41-45 | a filtered list is no longer than the input and holds exactly the input's elements that satisfy the condition |
| Lists.Count | app/gamification/routes.py:199 | `sum(1 for x in s if p(x))` is the filtered length; it is 0 exactly when no element satisfies p and \|s\| exactly when all do |
| Lists.FiredMembers | app/insights/routes.py:10-34 | a chain of `if condition: out.append(item)` gives an item exactly when one of its rules fires |
| Lists.FiredKeepsOrder | app/insights/routes.py:235-283 | the appended items follow the order of their rules, so none repeats |
| Lists.Map | app/insights/routes.py:24 | a list comprehension keeps the length and maps each element |
| Lists.FirstIndex | app/wellbeing/routes.py:109-112 | the row `.first()` returns is the first matching one, or -1 exactly when none matches |
| Lists.PutAtProperties | app/wellbeing/routes.py:109-129 | an upsert keeps every non-matching row, puts the new row in place, adds a row only when none matched, and keeps a single match single |
| Lists.RemoveAt | app/wellbeing/routes.py:152 | deleting a row keeps all other rows in order |
| Lists.MaxOf | app/chatbot/routes.py:349-352 | the running maximum from 0 is the largest element, or 0 when none is above 0 |
| Lists.MaxOverMeaning | app/gamification/routes.py:201-206 | `best = max(best, f(x))` from 0 gives the largest f, or 0 when none is above 0 |
| Lists.PickIndexMeaning | app/chatbot/routes.py:115-121 | a pick replaced only on a strictly larger value is the first element with the largest value, and there is none when no value beats 0 |
| Lists.FilterMapEntries | app/wellbeing/routes.py:243-246 | every entry of `[(x, f(x)) for x in s if keep(x)]` is a kept element with its own value |
| Lists.FilterMapComplete | app/wellbeing/routes.py:243-246 | every kept element has its entry |
| Sorting.SortBy | app/wellbeing/routes.py:66 | the stable sort is a permutation of its input |
| Sorting.SortBySorted | app/wellbeing/routes.py:66 | the stable sort's output is ordered by the key |
| Sorting.SortByStable | app/chatbot/routes.py:522 | the sort is stable: the elements with equal keys keep their input order |
| Sorting.FirstBestIsFirstMaximum | app/models.py:147 | `max(..., key=...)` returns the first element that ranks at least as high as all others |
| Sorting.SortHeadIsFirstBest | app/models.py:144-147 | the head of the stable descending sort is the element `max()` returns |
| Sorting.Take | app/main/routes.py:81 | `[:n]` keeps the first min(n, \|s\|) elements |
| Sorting.TopKeepsHighest | app/main/routes.py:81 | the first n of a stable sort are min(n, \|xs\|) input elements, and no element left off ranks higher than one kept |
| Tally.Add | app/models.py:143-147 | `d[k] = d.get(k, 0) + v` adds v to k's value, leaves every other key's value alone and adds v to the total |
| Tally.Build | app/wellbeing/routes.py:58-63 | the loop that fills the dict computes the tally of the entries |
| Tally.TallyKeys | app/wellbeing/routes.py:58-63 | the dict holds every key entered exactly once, and nothing else |
| Tally.TallyLookup | app/wellbeing/routes.py:58-63 | a key's value is the sum of the values entered under it |
| Tally.TallyTotal | app/wellbeing/routes.py:58-63 | the dict's values add up to the sum of all values entered |
| Tally.TallyItems | app/wellbeing/routes.py:58-63 | each item holds the sum entered under its key |
| Tally.TallySize | app/wellbeing/routes.py:58-63 | `len(d)` is the number of distinct keys entered |
| Tally.Append | app/gamification/routes.py:131-133 | `d.setdefault(k, []).append(v)` appends v to k's group and leaves every other group alone |
| Tally.BuildGroups | app/gamification/routes.py:128-133 | the loop that groups the entries computes GroupOf |
| Tally.GroupOfProperties | app/gamification/routes.py:128-133 | each key entered has exactly one group, holding its values in order |
| Calendar.DaysBeforeYear | app/habits/routes.py:284 | the day ordinal of 1 January of year y is preceded by 365 days per earlier year plus one per leap year, as in the proleptic Gregorian calendar of `datetime` |
| Calendar.LeapYearsStep | app/habits/routes.py:284 | counting one more year adds a leap day exactly when that year is a leap year |
| Calendar.NextFirstOrdinal | app/habits/routes.py:247-250 | the 1st of the next month (December rolling into January) is the 1st of this month plus the month's length |
| Calendar.EndOfMonth | app/habits/routes.py:244-250 | `end_of_month` is the last day of the month; together with the first day it spans exactly the month's length |
| Calendar.PrevDay | app/habits/routes.py:303 | `date - timedelta(days=1)` on a civil date is the valid date whose ordinal is one less |
| Calendar.PrevMonth | app/habits/routes.py:252-258 | the previous-month link stays in 1..12 and is exactly one month earlier, the year dropping at January |
| Calendar.NextMonth | app/habits/routes.py:260-265 | the next-month link stays in 1..12 and is exactly one month later, the year rising at December |
| Calendar.PrevNextRoundTrip | app/habits/routes.py:252-265 | the previous and next month links undo each other |
| Calendar.PrevWindowStart | app/habits/routes.py:303-307 | the start of the previous-month window, as computed for every month |
| Calendar.PrevWindowIsPrevMonth | app/habits/routes.py:303-307 | outside January the window is exactly the previous month |
| Calendar.PrevWindowJanuary | app/habits/routes.py:303-307 | in January the window starts on 1 December two years back and spans 31 + 365 or 366 days, as written |
| Models.Run | app/models.py:53-58 | the one-day run at the front of the dates is between 1 and \|dates\| long |
| Models.CurrentStreak | app/models.py:47-59 | the loop of `current_streak` computes Streak of the completed dates, newest first |
| Models.StreakCharacterised | app/models.py:47-59 | the streak is 0 exactly when there are no completed dates; otherwise it counts back from the newest one day at a time and stops at a gap or duplicate |
| Models.CompletedDatesOrdered | app/models.py:49 | the completed dates come newest first and are exactly the dates of the habit's completed logs |
| Models.CompletedDatesMeaning | app/models.py:49 | one date per completed log of the habit, and exactly their dates |
| Models.HabitStreakBounds | app/models.py:47-59 | the streak is 0 exactly when the habit has no completed log, and never exceeds the count of completed logs |
| Models.Streaks | app/main/routes.py:48 | `[h.current_streak() for h in habits]`, one streak per habit |
| Models.MaxStreak | app/gamification/routes.py:201-206 | the largest current streak, attained by some habit, 0 with no habits |
| Models.PercentBounds | app/models.py:61-66 | a percentage lies in [0, 100]; it is 0 exactly when the part is and 100 exactly when the part is the whole |
| Models.CompletionRateBounds | app/models.py:61-66 | `completion_rate` lies in [0, 100]; it is 0 with no completed log and 100 exactly when the habit has logs and all are completed |
| Models.RoundedPercentBounds | app/chatbot/routes.py:355 | a rounded percentage lies in [0, 100]; it is 0 for no completions and 100 when all are completed |
| Models.RoundedRateBounds | app/main/routes.py:51-61 | the rounded rate of a log list lies in [0, 100]; it is 0 without completions and 100 when all are completed |
| Models.LowerNames | app/insights/routes.py:24 | `[h.name.lower() for h in habits]`, one lowercased name per habit |
| Models.CompletedWithinTotal | app/insights/routes.py:301-304 | over the habits, completed logs never exceed all logs, and are all of them exactly when every log is completed |
| Models.AppUsageTotal | app/models.py:143-147 | the per-app sums add up to the total minutes |
| Models.TopAppsProperties | app/main/routes.py:74-81 | top apps are min(n, #apps) apps with their summed minutes, in descending order; no app left off has more; the first is the most-used app |
| Models.DailySummaryProperties | app/models.py:107-171 | None exactly when [today-7, today] has no log; the daily average is the floor of minutes per distinct day; the change is 0 when the previous week has no log or a non-positive average |
| Models.MostUsedAppIsMaximal | app/models.py:143-147 | the most-used app is an app of the week whose sum is at least every other app's sum |
| Models.WeeklyChangeSign | app/models.py:150-157 | the change has the sign of the average's change, and is at least -100 for a non-negative average |
| Models.FindRow | app/models.py:160-161 | the row `filter_by(user_id, date).first()` returns, or -1 exactly when none exists |
| Models.UpsertProperties | app/models.py:160-168 | other rows stay as they were, the new row is present, a row is added only when none existed, and one row per (user, date) stays one |
| Models.ScreenTimeStore.constructor | app/models.py:95-103 | the store holds the given rows |
| Models.ScreenTimeStore.Locate | app/models.py:160-161 | the scan finds FindRow |
| Models.ScreenTimeStore.GenerateFromLogs | app/models.py:107-171 | returns DailySummary, and writes nothing when it is None; otherwise the rows become the upsert of the summary |
| HabitStreaks.LongestStreak | app/gamification/routes.py:201-206 | the loop that replaces on a strictly larger streak computes MaxStreak |
| HabitStreaks.StreakAt | app/gamification/routes.py:41 | one habit's `current_streak()` |
| HabitStreaks.AnyHabitReaches | app/gamification/routes.py:38-43 | walking the habits with `break` finds exactly whether some streak reaches t |
| Criteria.KindOf | app/gamification/routes.py:27 | a name that is not one of the seven kinds stays an unknown kind under its own name |
| Criteria.ParseFormatRoundTrip | app/gamification/routes.py:26-28 | writing a criterion as "kind:threshold" and parsing it gives it back |
| Criteria.ParseKindBeforeColon | app/gamification/routes.py:26-28 | the kind is the text before the first ':'; the threshold is int() of the next field, and parsing fails exactly where int() raises |
| Criteria.ParseWithoutColon | app/gamification/routes.py:28 | without ':' the whole string is the kind and the threshold is 0 |
| Criteria.SortedDistinctProperties | app/gamification/routes.py:61 | `sorted(set(dates))` is strictly increasing, holds exactly the log dates, and is empty only with no logs |
| Criteria.LongestRunOf | app/gamification/routes.py:62-71 | the `consecutive_days`/`max_consecutive` loop computes LongestRun |
| Criteria.LongestRunIsLongest | app/gamification/routes.py:62-71 | the longest run is at least 1 on a non-empty list, is attained by a window of consecutive days, and no such window is longer |
| Criteria.LongestRunOfDates | app/gamification/routes.py:57-74 | on the log dates themselves, some LongestRun days in a row were all logged, and no run of logged days is longer |
| Criteria.DailyMeanIsMinutesPerDay | app/gamification/routes.py:101-109 | the mean of `daily_screen_time` is total minutes over the number of distinct days |
| Criteria.CountPerfectDays | app/gamification/routes.py:136-139 | the loop counts the perfect groups |
| Criteria.PerfectDayMeaning | app/gamification/routes.py:128-139 | one group per logged day; a group is perfect exactly when that day's logs number habit_count and are all completed |
| Criteria.StreakEarnedMeaning | app/gamification/routes.py:38-43 | the streak achievement is earned exactly when some habit's streak reaches the threshold |
| Criteria.Evaluate | app/gamification/routes.py:29-142 | the criterion branch of the grant loop computes Earned |
| Criteria.RatioProgressBounds | app/gamification/routes.py:351 | `min(100, int(value / max(1, t) * 100))` lies in [0, 100], and is 100 exactly when the value reaches t >= 1 |
| Criteria.ScreenProgressBands | app/gamification/routes.py:413-419 | screen progress lies in [0, 100], is 100 exactly at or below the target, and 0 beyond 1.5 times it |
| Criteria.ScreenProgressMonotone | app/gamification/routes.py:413-419 | more screen time never shows more progress |
| Criteria.OverallRateBounds | app/gamification/routes.py:53 | the overall completion rate lies in [0, 100] |
| Criteria.ProgressMatchesEarned | app/gamification/routes.py:338-448 | progress lies in [0, 100], is 0 for an unknown kind, and for a threshold of at least 1 reaches 100 exactly when the achievement would be granted |
| Criteria.ComputeProgress | app/gamification/routes.py:338-448 | the progress loops compute Progress |
| Criteria.RequirementTextShowsThreshold | app/gamification/routes.py:310-336 | the text of every known kind but screen time shows the threshold |
| Criteria.DurationTextShows | app/gamification/routes.py:327-332 | the hours and minutes shown add back up to the target, and each positive part is shown |
| Criteria.ScreenTimeTextShowsDuration | app/gamification/routes.py:327-332 | the screen-time text shows each positive part of the target in hours and minutes |
| Gamification.GrantStore.constructor | app/gamification/routes.py:15-16 | the store starts with the user's existing grants |
| Gamification.GrantStore.CheckAchievements | app/gamification/routes.py:9-157 | returns NewlyEarned; on success the grants grow by exactly the new ids, and on an int() error nothing is committed |
| Gamification.CheckOne | app/gamification/routes.py:26-142 | one definition's outcome: parse, then evaluate |
| Gamification.NewlyEarnedExact | app/gamification/routes.py:15-23 | the newly earned are exactly the definitions not yet granted whose criteria hold |
| Gamification.NewlyEarnedFails | app/gamification/routes.py:26-28 | the call aborts exactly when a definition not yet granted has a threshold int() rejects |
| Gamification.NoDoubleGrant | app/gamification/routes.py:144-157 | the new grants are disjoint from the old, and a second call on the same data returns [] |
| Gamification.AchievementPercentageBounds | app/gamification/routes.py:192-210 | `int(part / whole * 100)`, 0 for no whole, lies in [0, 100] and is 100 exactly when the part is the whole; this is the achievement percentage (192-194) and the page's completion rate (210) |
| Gamification.CompareMeaning | app/gamification/routes.py:768-769 | the larger figure wins, equal figures tie, and swapping the two swaps the winner |
| Gamification.IdleHabitNeverWins | app/gamification/routes.py:750-789 | a habit without completed logs never beats a twin with non-negative figures |
| Leaderboard.UserStats | app/gamification/routes.py:458-477 | a real user's row: the number of completed logs, the largest current streak of the user's habits (0 with no habits) and the achievement count |
| Leaderboard.Prefix | app/gamification/routes.py:284-285 | `sample_users[:needed]` is clamped to the list |
| Leaderboard.PaddedProperties | app/gamification/routes.py:482-551 | padding keeps the real users in front and reaches n when there are enough samples |
| Leaderboard.BoardShowsAll | app/gamification/routes.py:482-557 | a board that keeps the whole padded list shows every real user |
| Leaderboard.SidebarBoardProperties | app/gamification/routes.py:245-291 | always 5 entries, sorted by achievements; no entry left off ranks higher; every real user is shown when there are at most 5 |
| Leaderboard.LeaderBoardSize | app/gamification/routes.py:482-560 | 10 entries whenever there is a real user; `[:5]` is its first 5 |
| Leaderboard.LeaderBoardShowsAll | app/gamification/routes.py:482-557 | every real user is on the board when there are at most 10 |
| Leaderboard.LeaderBoardOrder | app/gamification/routes.py:554-557 | sorted by (achievements, completed habits), a prefix of a permutation of the padded users, and no entry left off ranks higher |
| Insights.HabitSuggestions | app/insights/routes.py:10-34 | the appends give the suggestions of the rules that fire, in rule order |
| Insights.SuggestionRulesMeaning | app/insights/routes.py:10-34 | each of the five suggestions is given exactly when its rule fires, once, in rule order |
| Insights.LastTenLogsAreNewest | app/insights/routes.py:39 | the ten newest logs of the habit, or all of them when there are fewer |
| Insights.DropoutOfMeaning | app/insights/routes.py:42-53 | fewer than 3 logs is not enough data; otherwise dropout is predicted exactly when under 30% are completed |
| Insights.PredictDropoutMeaning | app/insights/routes.py:36-53 | a habit with fewer than 3 logs is never judged |
| Insights.WellbeingScoreBounds | app/insights/routes.py:66-91 | the score lies in [0, 100] and is 100 with no screen time; banding the untruncated score gives the band of the stored integer score |
| Insights.WellbeingScoreMonotone | app/insights/routes.py:66-81 | more screen time never raises the score; an active plan and more limits never lower it |
| Insights.TrendMonotone | app/insights/routes.py:94-114 | a trend exists exactly with at least 3 logs on 2 or more dates, and a steeper slope never gives a lower band |
| Insights.LimitEffectMeaning | app/insights/routes.py:127-144 | limits are effective under 30% limited usage and ineffective from 60%; they are effective when no limited app was used and ineffective when only limited apps were |
| Insights.WellbeingInsightsProperties | app/insights/routes.py:55-146 | the stored score lies in [0, 100] and its summary is the band of that score; no screen time scores 100 |
| Insights.HabitCorrelationOf | app/insights/routes.py:171-215 | the per-habit loop body computes HabitCorrelation |
| Insights.CalculateCorrelations | app/insights/routes.py:148-225 | the loops compute Correlations |
| Insights.HabitCorrelationMeaning | app/insights/routes.py:171-215 | an entry exists exactly with 3 logs, two points in each group, a positive missed-day mean and a difference over 10%; "less" exactly when completed days average less; strength in [15, 100] |
| Insights.FoundCorrelationsExact | app/insights/routes.py:171-215 | an entry is found exactly for the habits that have one |
| Insights.CorrelationsProperties | app/insights/routes.py:152-223 | never empty; the single placeholder with too little data; every strength in [15, 100] |
| Insights.HeavyTopAppMeaning | app/insights/routes.py:243-252 | there is a heavy top app exactly when some app sums over 120 minutes, and it is then the most-used app |
| Insights.PersonalizedRecommendations | app/insights/routes.py:227-292 | each recommendation is given exactly when its rule fires, once and in rule order, the general one exactly when none does, so the list is never empty |
| Insights.RuleRecommendations | app/insights/routes.py:235-283 | the appends give the recommendations of the five rules that fire, in rule order: each exactly when it fires, once |
| Insights.RecommendationRulesMeaning | app/insights/routes.py:235-283 | each of the five recommendations is given exactly when its rule fires, once, in rule order, and the general one never |
| Insights.TopAppOver120 | app/insights/routes.py:243-252 | the tally loop and top 3 give HeavyTopApp |
| Insights.ReportTipsMeaning | app/insights/routes.py:374-398 | each tip exactly when its rule fires, the general one exactly when none does; 1 to 3 tips |
| Insights.GenerateWeeklyReport | app/insights/routes.py:294-411 | the loops compute WeeklyReportOf |
| Insights.AppendReportTips | app/insights/routes.py:374-398 | the appends compute ReportTips |
| Insights.ShareBounds | app/insights/routes.py:301-304 | the completed share lies in [0, 1] and is 1 exactly when there are logs and all are completed |
| Insights.ReportRateBounds | app/insights/routes.py:318 | the rate lies in [0, 100], is 0 without habits and 100 exactly when there are logs and all are completed |
| Insights.OverallScoreBounds | app/insights/routes.py:301-314 | the overall score lies in [0, 100]; at most 50 without habits and at least 50 without screen time |
| Insights.WeeklyReportProperties | app/insights/routes.py:294-411 | score and rate in [0, 100]; rate 0 without habits; change 0 with no positive previous week; recommendations never empty |
| Habits.TrailingHits | app/habits/routes.py:179-183 | the last n draws all fell below the rate, and the draw before them, if any, did not |
| Habits.TwinAfterStreak | app/habits/routes.py:175-185 | after a series of steps the streak counts the trailing successes, on top of the old streak when all succeeded; nothing else changes |
| Habits.LogUpsertProperties | app/habits/routes.py:150-173 | other logs are kept, a log is added only when the day had none, a log of the day carries the submitted values, and one log per day stays one |
| Habits.DeleteHabitRemovesExactly | app/habits/routes.py:127-134 | exactly the habit's logs and the user's twin of it are dropped |
| Habits.OneLogPerDayCount | app/habits/routes.py:151-155 | in a table with one log per habit, user and day, the day's query finds at most one log |
| Habits.LogUpsertKeepsOnePerDay | app/habits/routes.py:157-173 | the update-or-create of the day's log never makes a second log for a habit, user and day |
| Habits.FilterKeepsOnePerDay | app/habits/routes.py:127-134 | deleting logs keeps one log per habit, user and day |
| Habits.DayLogsAfterUpsert | app/habits/routes.py:150-173 | after the upsert there is still one log per day, and exactly one for the day submitted |
| Habits.LogIdsAfterUpsert | app/habits/routes.py:164-170 | every log id stays below the next one, which a created log takes |
| Habits.HabitStore.constructor | app/habits/routes.py:19-43 | an empty store |
| Habits.HabitStore.NewHabit | app/habits/routes.py:19-43 | a habit with a fresh id and a twin with rate in [0.6, 0.9] and streak in [0, 5]; logs unchanged |
| Habits.HabitStore.FindHabit | app/habits/routes.py:122 | the first habit with the id, or -1 |
| Habits.HabitStore.DeleteHabit | app/habits/routes.py:119-137 | only the owner deletes; then the habit, its logs and twin are gone; otherwise nothing changes; one log per day is kept |
| Habits.HabitStore.DropHabit | app/habits/routes.py:127-134 | the habit at i, its logs and the user's twin of it are removed; ids and one log per day are kept |
| Habits.HabitStore.LogHabit | app/habits/routes.py:139-187 | for the owner the day's log is updated or created, leaving exactly one log for the day; only creation steps the twin; otherwise nothing changes |
| Habits.HabitStore.SubmitLog | app/habits/routes.py:150-185 | the logs become LogUpsert, with exactly one log for the day and still one per day for every habit and user; Created exactly when the day had no log; only then the twin steps |
| Habits.HabitStore.StepTwin | app/habits/routes.py:175-185 | the twins become TwinUpdate: the user's twin of the habit, if any, steps with the draw; nothing else changes |
| Habits.HabitStore.LocateLog | app/habits/routes.py:151-155 | the first log of the day, or -1 exactly when the day has none |
| Habits.HabitStore.LocateTwin | app/habits/routes.py:176 | the first twin of the habit and user, or -1 |
| Habits.FirstOnDate | app/habits/routes.py:76 | `next(...)` is None exactly when no log has the date, and otherwise a log of that date |
| Habits.DateLogs | app/habits/routes.py:73-80 | 30 entries, entry i being today - i with the first log of that day |
| Habits.CalendarOfDates | app/habits/routes.py:276-281 | the calendar holds exactly the logged dates |
| Habits.CalendarOfHabits | app/habits/routes.py:276-281 | under each date exactly the habits logged that day |
| Habits.CalendarOfLastLog | app/habits/routes.py:276-281 | each (date, habit) carries its last log's completed flag |
| Habits.CalendarData | app/habits/routes.py:276-281 | the loop computes CalendarOf |
| Habits.RateChangeBounds | app/habits/routes.py:298-321 | the month change of the rate lies in [-100, 100] |
| Habits.BestRunInWindow | app/habits/routes.py:323-335 | the best run in the first n entries is a completed window there, and no completed window is longer |
| Habits.BestStreakMeaning | app/habits/routes.py:323-335 | best_streak is some habit's best run, or 0, and no habit's best run is longer |
| Habits.BestStreak | app/habits/routes.py:323-335 | the loops compute BestStreakOf |
| Habits.RunLoop | app/habits/routes.py:328-335 | the inner loop carries best_streak to the maximum of its old value and the habit's best run |
| Habits.MostConsistentMeaning | app/habits/routes.py:337-345 | the pick's rate is the highest of a habit with logs; ('None', 0) exactly when none is positive; otherwise the first habit reaching it |
| Habits.MostConsistent | app/habits/routes.py:337-345 | the loop computes MostConsistentOf |
| Habits.HabitCalendar | app/habits/routes.py:227-371 | the month asked for, or today's month when a part is missing; Err where datetime raises; otherwise MonthViewFor |
| Habits.ShowMonth | app/habits/routes.py:244-345 | the page shows MonthViewFor: its days, links, logs, calendar, rates and statistics |
| Habits.DateRange | app/habits/routes.py:284-295 | numDays consecutive days from the first |
| Chatbot.MentionedHabitIsFirst | app/chatbot/routes.py:24-28 | the habit advised on is the first whose lowercased name occurs in the message; none exactly when no name occurs |
| Chatbot.FirstRuleIsFirstMatch | app/chatbot/routes.py:30-72 | the keyword reply is that of the first rule that matches |
| Chatbot.DispatchFollowsRules | app/chatbot/routes.py:9-87 | process_message reads the rule table first-match-wins: greeting, habit names, keyword groups, default |
| Chatbot.KeywordsFollowRules | app/chatbot/routes.py:30-87 | the keyword chain is the rule table read one rule at a time |
| Chatbot.GreetingFirst | app/chatbot/routes.py:18-21 | a greeting word anywhere gives the greeting |
| Chatbot.HiInsideThis | app/chatbot/routes.py:18-31 | every message containing "this" gets the greeting, so "this week" never reaches the summary |
| Chatbot.HowAmIDoingIsSummary | app/chatbot/routes.py:31-44 | "how am i doing" reaches the summary, never the tracking summary |
| Chatbot.WeeklySummary | app/chatbot/routes.py:89-138 | the route computes WeeklySummaryOf |
| Chatbot.LongestStreak | app/chatbot/routes.py:115-121 | the pick is the first habit with the largest positive streak; none when every streak is 0 |
| Chatbot.QualityBands | app/chatbot/routes.py:124-131 | the bands at 80, 60 and 40 percent in whole numbers |
| Chatbot.WeeklySummaryMeaning | app/chatbot/routes.py:89-131 | the two fixed replies exactly for no habits and no logs; otherwise the rate is in [0, 100] and its band follows from the counts |
| Chatbot.WeeklyStreakHabit | app/chatbot/routes.py:115-136 | the named habit is the first with the largest streak; no sentence exactly when every streak is 0 |
| Chatbot.FractionBounds | app/chatbot/routes.py:152 | a habit's completed fraction lies in [0, 1] |
| Chatbot.HabitFocus | app/chatbot/routes.py:140-164 | the route computes HabitFocusOf |
| Chatbot.HabitFocusCases | app/chatbot/routes.py:144-156 | the fixed reply exactly without habits; a random habit exactly when none has logs |
| Chatbot.HabitFocusLowest | app/chatbot/routes.py:148-164 | the habit is one with logs whose fraction is the lowest of those with logs |
| Chatbot.HabitFocusFirstLowest | app/chatbot/routes.py:159-162 | ties go to the first habit with the lowest fraction |
| Chatbot.HoursAndMinutes | app/chatbot/routes.py:237-238 | hours and minutes add back to the total, with minutes in 0..59 |
| Chatbot.HoursAndMinutesUnique | app/chatbot/routes.py:237-238 | that split is the only one with minutes in 0..59 |
| Chatbot.ScreenTimeSummary | app/chatbot/routes.py:221-263 | the route computes ScreenSummaryOf |
| Chatbot.ScreenSummaryMeaning | app/chatbot/routes.py:221-263 | the fixed reply exactly without recent logs; otherwise the total splits, and at most 3 apps with their sums, descending, none left off having more |
| Chatbot.AppDurations | app/chatbot/routes.py:254-261 | each app keeps its name and time, split into hours and minutes |
| Chatbot.LineOf | app/chatbot/routes.py:527-533 | "No active streak" exactly for 0, "1 day" exactly for 1, and the line reports the streak |
| Chatbot.StreakInformation | app/chatbot/routes.py:508-538 | the route computes StreakReportOf |
| Chatbot.StreakReportOrder | app/chatbot/routes.py:512-522 | the fixed reply exactly without habits; otherwise one line per habit, longest streak first |
| Chatbot.StreakReportStable | app/chatbot/routes.py:516-530 | the habits with the same streak are listed in the order of the habits, as the stable sort leaves them |
| Chatbot.StreakReportLines | app/chatbot/routes.py:516-533 | each habit's line appears, and every line is some habit's |
| Chatbot.AdviceMeaning | app/chatbot/routes.py:414-446 | the 30-day rate is in [0, 100] and picks the band at 80 and 50; all completed is doing great, none is challenges; praise needs a streak |
| Chatbot.InterestMatches | app/chatbot/routes.py:321-326 | the untracked related habits of the first hobby keyword that has any; empty exactly when no keyword has any |
| Chatbot.SuggestionAmongEarly | app/chatbot/routes.py:306-309 | the early reply exactly when every common habit is tracked |
| Chatbot.SuggestionAmongPicks | app/chatbot/routes.py:306-330 | the suggestion is untracked, general ones are common habits, interest ones match a hobby keyword |
| Chatbot.HabitSuggestionMeaning | app/chatbot/routes.py:293-330 | never a habit the user already tracks under any capitalisation; early reply exactly when all common habits are tracked |
| Chatbot.ChatbotStats | app/chatbot/routes.py:334-355 | the loop computes SidebarStatsOf |
| Chatbot.SidebarStatsMeaning | app/chatbot/routes.py:334-355 | rate in [0, 100], 0 with none completed, 100 when all completed; the longest streak is the largest current streak |
| Wellbeing.NewestFirstMeaning | app/wellbeing/routes.py:52 | the query returns every stored row once, newest first |
| Wellbeing.UsageDashboard | app/wellbeing/routes.py:46-85 | the page's total, ranked apps and average hours, over the rows newest first |
| Wellbeing.TieGoesToLaterApp | app/wellbeing/routes.py:52-66 | two apps with equal totals are ranked with the one logged on the later day first, because the newest-first rows fill app_usage |
| Wellbeing.RankedAppsMeaning | app/wellbeing/routes.py:55-66 | the ranked apps are all apps, once each, with their sums, in descending order, and add up to the total minutes |
| Wellbeing.DailyAverageMeaning | app/wellbeing/routes.py:69-71 | 0 without logs; otherwise total minutes over distinct days, in hours, whose minutes floor to the stored daily average |
| Wellbeing.LimitUpsertProperties | app/wellbeing/routes.py:107-129 | the user's limit for the app is updated and activated, or one new active limit is added; other limits are kept |
| Wellbeing.LimitUpsertKeepsOnePerApp | app/wellbeing/routes.py:107-129 | the upsert never creates a second limit for the same app |
| Wellbeing.ToggleAtProperties | app/wellbeing/routes.py:169 | only the flag flips; toggling twice restores; one limit per app is kept |
| Wellbeing.DeleteLimitRemovesApp | app/wellbeing/routes.py:151-152 | the deleted limit's app has no limit left, and one limit per app is kept |
| Wellbeing.AppLimitStore.constructor | app/models.py:173-180 | an empty store |
| Wellbeing.AppLimitStore.SetLimit | app/wellbeing/routes.py:107-129 | the limits become LimitUpsert; a limit is created exactly when the user had none for the app |
| Wellbeing.AppLimitStore.LocateLimit | app/wellbeing/routes.py:109-112 | the scan finds the user's limit for the app |
| Wellbeing.AppLimitStore.FindLimit | app/wellbeing/routes.py:144 | the scan finds the limit with the id |
| Wellbeing.AppLimitStore.ToggleLimit | app/wellbeing/routes.py:158-174 | not found, not the owner, or the flag flipped; nothing else changes |
| Wellbeing.AppLimitStore.DeleteLimit | app/wellbeing/routes.py:141-156 | not found, not the owner, or that limit removed; nothing else changes |
| Wellbeing.DetoxSuggestions | app/wellbeing/routes.py:226-246 | the loop computes DetoxSuggestionsOf, the apps tallied from the rows newest first |
| Wellbeing.ReductionMeaning | app/wellbeing/routes.py:245 | `int(minutes * 0.3)` is (3m) div 10, at least 18 and below m for m > 60 |
| Wellbeing.DetoxSuggestionsMeaning | app/wellbeing/routes.py:243-246 | at most 3 suggestions, each from the top 3 with over 60 minutes and its reduction; every such app is suggested |
| Wellbeing.PlanUpsertProperties | app/wellbeing/routes.py:248-270 | the active plan is updated in place, or one new active plan is added; other plans are kept; the plan gets the form's limit and switches; an update writes the break interval as submitted, even blank, and a creation stores it or else the column default 60 |
| Wellbeing.PlanUpsertKeepsOneActive | app/wellbeing/routes.py:248-270 | the upsert never adds a second active plan |
| Wellbeing.DeactivateProperties | app/wellbeing/routes.py:296-297 | the plan becomes inactive with end date today; one active plan per user is kept |
| Wellbeing.DetoxStore.constructor | app/models.py:184-198 | an empty store |
| Wellbeing.DetoxStore.SavePlan | app/wellbeing/routes.py:248-270 | for a daily limit of at least 1 and a blank or at least 15 break interval, the plans become PlanUpsert; a plan is created exactly when the user had no active plan |
| Wellbeing.DetoxStore.LocateActivePlan | app/wellbeing/routes.py:214 | the scan finds the user's active plan |
| Wellbeing.DetoxStore.DeactivatePlan | app/wellbeing/routes.py:284-300 | not found, not the owner, or the plan deactivated; nothing else changes |
| Dashboard.TotalStreakMeaning | app/main/routes.py:48 | 0 without habits; at least the largest streak; 0 exactly when every streak is 0 |
| Dashboard.RecentWeekLogsMeaning | app/main/routes.py:41-45 | the user's logs since today - 7, newest first, and exactly those |
| Dashboard.CompletionRateMeaning | app/main/routes.py:51-61 | the 7-day rate is in [0, 100], 0 with none completed, 100 when all are completed |
| Dashboard.Home | app/main/routes.py:34-99 | the page's total streak, rate, screen total and top 5 apps |
| Dashboard.ScreenSummaryMeaning | app/main/routes.py:64-81 | the app sums add up to the total; at most 5 apps, descending, none left off having more |

## Left out

- Flask plumbing is not modelled: routing, templates, `flash`, redirects, `login_required`, JSON wrapping and template-only dictionaries. It is presentation only.
- SQLAlchemy queries and commits are not modelled. Their results are input sequences. A `date.desc()` ordering is modelled as a stable sort, so rows of the same date keep their stored order; the database does not promise that order.
- `np.polyfit` (app/insights/routes.py:103) is not modelled: it is floating-point least squares in a library. The slope is an input to `Insights.TrendOf`, which models only the banding.
- Random draws are parameters: the twin step's draw, the new twin's rate and streak, and the `random.choice` picks. Random default replies and the random stubs at app/insights/routes.py:564-633 are not modelled.
- File and image I/O is not modelled: Excel upload and parsing (app/wellbeing/routes.py:13-42, 176-206) and profile pictures.
- Password hashing is not modelled; it is a library call.
- The hard-coded challenge lists and challenge pages (app/gamification/routes.py:570-746, app/wellbeing/routes.py:303-349) are fixed data and are not modelled.
- The wall-clock greeting hours of the chatbot are not modelled.
- The database and sample-data scripts are not modelled.
- Concurrency is not modelled: each request is taken as single-threaded.
- Some chatbot replies are kept only as reply tags. The daily challenge, help and thanks are fixed text or a random choice. The tracking summary (app/chatbot/routes.py:187-219), the achievement summary (265-291) and motivation (462-506) are computed replies outside the modelled core: they count the week's logs per date, list the achievement rows and read habit streaks.
- The home page's recent achievements list (app/main/routes.py:84-86) is display only and not modelled.
- `update_habit` (app/habits/routes.py:94-117) is not modelled: it only copies form fields.
- The app-limits page's suggestion list (app/wellbeing/routes.py:96-105, 138) has no member of its own. It is `Models.TopApps(logs, 10)`, which `Models.TopAppsProperties` covers for every n.
- The GET side of `log_habit` (app/habits/routes.py:188-225) is display only and not modelled: the last five logs, the twin's rate and its random week.
- Form constraints are preconditions, not modelled behaviour: a limit of at least 1 minute, a break interval that is blank or at least 15, a habit name of 2 to 100 characters, a goal that is blank or at least 1.
- Wellbeing.PlanUpsertProperties: a created plan stores 60 for a blank break interval because SQLAlchemy leaves a None attribute out of the INSERT, so the column default applies. An update assigns None to the column.
- Wellbeing.DetoxStore.SavePlan: the new plan's `start_date` column default is evaluated once, when the models are loaded (app/models.py:189). It is therefore a parameter, not the request's date.
- The January previous-month window of the calendar (app/habits/routes.py:303-307) is reproduced as written, with `year - 1` applied to a date already in December. `Calendar.PrevWindowJanuary` states what that window is.
- The greeting check matches "hi" inside any word (app/chatbot/routes.py:18). It is reproduced as written, and `Chatbot.HiInsideThis` states the consequence.
- The leaderboard's loops over all users (app/gamification/routes.py:245-251, 456-477) are not modelled as loops. The boards take the rows as input; `Leaderboard.UserStats` builds one full-leaderboard row, and a sidebar row is a username with its achievement count.
- Floating-point arithmetic is modelled on exact reals. `int()` and `round()` are applied to the exact quotient, not to the double that Python computes. Where the double falls just below an integer, Python's result is one less. For example, `(29/100)*100` is 28.999999999999996 in doubles, and `round((23/40)*100)` is 57. Each member below computes such a figure and can differ by one from the program at such inputs.
- Models.ScreenTimeStore.GenerateFromLogs: `weekly_change` (app/models.py:155,163) is `int(...)` of the exact change, so averages 129 and 100 store 29 where the program stores 28.
- Criteria.Evaluate: the completion criterion (app/gamification/routes.py:53-54) compares the exact rate with the threshold, so 29 completed of 100 logs meets "completion:29". The program's 28.999999999999996 does not meet it.
- Criteria.ComputeProgress: `int(value / t * 100)` (app/gamification/routes.py:351) is taken on exact reals, giving 29 for a streak of 29 against 100 where the program gives 28.
- Gamification.GrantStore.CheckAchievements: it grants with `Criteria.Evaluate`, so it carries the exact-real completion comparison. It also carries the ASCII-only threshold parsing of `Text.ParseInt` (see `Criteria.ParseKindBeforeColon`).
- Gamification.CheckOne: parsing and evaluation carry the exact-real comparison of `Criteria.Evaluate` and the ASCII-only parsing of `Text.ParseInt`.
- Gamification.AchievementPercentageBounds: the bounds hold for the exact-real percentage (app/gamification/routes.py:194), which is 29 for 29 of 100 where the program shows 28.
- Insights.HabitCorrelationOf: the figure shown, `abs(int(percent_diff))` (app/insights/routes.py:207), is taken on exact reals, so averages 100 and 71 show 29 where the program shows 28.
- Insights.CalculateCorrelations: it builds its entries with `Insights.HabitCorrelationOf`, so it carries the same exact-real figure.
- Insights.GenerateWeeklyReport: the completion rate and the screen-time change (app/insights/routes.py:318,349) are taken on exact reals, so 29/100 and totals 903 and 700 give 29 where the program gives 28.
- Habits.MostConsistent: `round(rate * 100)` (app/habits/routes.py:343) rounds the exact rate, so 23 of 40 gives 58 where the program gives 57.
- Habits.ShowMonth: the month rates (app/habits/routes.py:300,318) round exact reals, so 23 of 40 shows 58 where the page shows 57.
- Chatbot.ChatbotStats: the sidebar rate (app/chatbot/routes.py:355) rounds the exact rate, so 23 of 40 gives 58 where the program gives 57.
- Dashboard.Home: the 7-day rate (app/main/routes.py:61) rounds the exact rate, so 23 of 40 gives 58 where the page shows 57.
- Text handling is ASCII-only. Python's `lower()`, `strip()` and `int()` are Unicode-aware, and the model does not follow them outside ASCII.
- Text.Lower: only A-Z is lowered. Python also lowers non-ASCII letters ('É' becomes 'é'), and some of them change length ('İ' lowers to two code points).
- Text.StripMeaning: only space, tab, newline, carriage return, vertical tab and form feed are stripped. Python's `strip()` also strips other Unicode whitespace such as U+00A0.
- Models.LowerNames: the habit names are lowered by `Text.Lower`, so a non-ASCII name is not lowercased as `h.name.lower()` would lowercase it.
- Chatbot.MentionedHabitIsFirst: matching lowers with `Text.Lower`, so the habit "Café" is not found in the message "CAFÉ", which the program matches.
- Criteria.ParseKindBeforeColon: parsing fails exactly where `Text.ParseInt` does: an optional sign and ASCII digits, after stripping ASCII whitespace. Python's `int()` also accepts underscores between digits ("1_0"), non-ASCII digits ("１０") and Unicode whitespace ("\xa010").
- Gamification.NewlyEarnedFails: it fails on a threshold such as "1_0" that Python's `int()` accepts and the program grants on.
- Leaderboard.LeaderBoardSize: the full leaderboard has 10 entries only when there is a real user. With no users there are only nine sample users, which the page's login requirement rules out.
