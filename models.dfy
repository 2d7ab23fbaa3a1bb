/** The records of app/models.py and the derived metrics defined on them:
    a habit's current streak and completion rate, and the aggregated
    ScreenTime row built from the last two weeks of screen-time logs. Dates
    are day ordinals (see Calendar). */
module Models {
  import opened Text
  import opened Lists
  import opened Tally
  import opened Sorting
  import opened Numerics

  datatype Habit = Habit(id: int, userId: int, name: string, frequency: string, goal: Option<int>)

  datatype HabitLog = HabitLog(id: int, habitId: int, userId: int, date: int, completed: bool, notes: string)

  datatype ScreenTimeLog = ScreenTimeLog(userId: int, date: int, appName: string, minutes: int)

  /** An achievement definition; `criteria` reads "kind:threshold". */
  datatype Achievement = Achievement(id: int, name: string, criteria: string)

  /** The simulated twin of a habit: its completion probability in [0, 1]
      and its running streak. */
  datatype DigitalTwin = DigitalTwin(userId: int, habitId: int, completionRate: real, streak: int)

  /** A per-app daily limit. */
  datatype AppLimit = AppLimit(id: int, userId: int, appName: string, dailyLimitMinutes: int, isActive: bool)

  /** A digital detox plan; `endDate` is set when it is deactivated, and the
      break interval column is nullable. */
  datatype DetoxPlan = DetoxPlan(
    id: int, userId: int, dailyLimitMinutes: int, startDate: int, endDate: Option<int>, isActive: bool,
    enableAppBlocking: bool, enableNotifications: bool, enableBreakReminders: bool, breakIntervalMinutes: Option<int>)

  /** A ScreenTime row: the aggregate stored per (user, date). */
  datatype ScreenTime = ScreenTime(userId: int, date: int, dailyAverage: int, mostUsedApp: string, weeklyChange: int)

  // ---------------------------------------------------------------------
  // Habit.current_streak

  /** The first n dates step back one day at a time. */
  predicate OneDaySteps(dates: seq<int>, n: int)
    requires n <= |dates|
  {
    forall j :: 0 <= j < n - 1 ==> dates[j] - dates[j + 1] == 1
  }

  /** The length of the one-day run at the front of `dates`. */
  function Run(dates: seq<int>): (n: nat)
    requires |dates| >= 1
    ensures 1 <= n <= |dates|
  {
    if |dates| == 1 then 1
    else if dates[0] - dates[1] == 1 then 1 + Run(dates[1..])
    else 1
  }

  /** The streak of a habit whose completed logs have `dates`, newest first. */
  function Streak(dates: seq<int>): nat
  {
    if dates == [] then 0 else Run(dates)
  }

  lemma {:induction false} RunSteps(dates: seq<int>)
    requires |dates| >= 1
    ensures OneDaySteps(dates, Run(dates))
    ensures Run(dates) == |dates| || dates[Run(dates) - 1] - dates[Run(dates)] != 1
  {
    if |dates| > 1 && dates[0] - dates[1] == 1 {
      var rest := dates[1..];
      RunSteps(rest);
      forall j | 0 <= j < Run(dates) - 1 ensures dates[j] - dates[j + 1] == 1 {
        if j > 0 {
          assert dates[j] == rest[j - 1] && dates[j + 1] == rest[j];
        }
      }
    }
  }

  /** The run is the only length whose steps are all one day and which
      ends at the last date or at a step that is not one day. */
  lemma {:induction false} RunUnique(dates: seq<int>, n: int)
    requires 1 <= n <= |dates| && OneDaySteps(dates, n)
    requires n == |dates| || dates[n - 1] - dates[n] != 1
    ensures Run(dates) == n
  {
    if n > 1 {
      var rest := dates[1..];
      assert dates[0] - dates[1] == 1;
      assert forall j :: 0 <= j < |rest| ==> rest[j] == dates[j + 1];
      assert OneDaySteps(rest, n - 1);
      RunUnique(rest, n - 1);
    }
  }

  /** The loop of Habit.current_streak over the completed dates, newest
      first: start at 1 and count while the next date is exactly one day
      earlier. */
  method CurrentStreak(dates: seq<int>) returns (streak: int)
    ensures streak == Streak(dates)
  {
    if |dates| == 0 {
      return 0;
    }
    streak := 1;
    var i := 0;
    while i < |dates| - 1
      invariant 0 <= i <= |dates| - 1
      invariant streak == i + 1
      invariant OneDaySteps(dates, i + 1)
    {
      if dates[i] - dates[i + 1] == 1 {
        streak := streak + 1;
      } else {
        break;
      }
      i := i + 1;
    }
    RunUnique(dates, streak);
  }

  /** What the streak means: it is 0 exactly when there are no completed
      dates; otherwise it counts back from the newest date one day at a
      time, and the next date (if any) is not the day before, so a gap or a
      repeated date ends it. */
  lemma StreakCharacterised(dates: seq<int>)
    ensures Streak(dates) == 0 <==> dates == []
    ensures Streak(dates) <= |dates|
    ensures dates != [] ==> 1 <= Streak(dates)
    ensures forall j :: 0 <= j < Streak(dates) ==> dates[j] == dates[0] - j
    ensures dates != [] && Streak(dates) < |dates| ==> dates[Streak(dates) - 1] - dates[Streak(dates)] != 1
  {
    if dates != [] {
      RunSteps(dates);
      CountBack(dates, Run(dates));
    }
  }

  lemma {:induction false} CountBack(dates: seq<int>, n: int)
    requires 1 <= n <= |dates| && OneDaySteps(dates, n)
    ensures forall j :: 0 <= j < n ==> dates[j] == dates[0] - j
  {
    if n > 1 {
      CountBack(dates, n - 1);
      assert dates[n - 2] - dates[n - 1] == 1;
    }
  }

  /** Newer-first order on dates. */
  predicate NotOlder(a: int, b: int) { a >= b }

  lemma NotOlderTotal()
    ensures TotalPreorder(NotOlder)
  {
  }

  /** The dates of the habit's completed logs, with repetitions. */
  function CompletedDateBag(habitId: int, logs: seq<HabitLog>): multiset<int>
  {
    if logs == [] then multiset{}
    else
      (if logs[0].habitId == habitId && logs[0].completed then multiset{logs[0].date} else multiset{})
      + CompletedDateBag(habitId, logs[1..])
  }

  /** The dates of the habit's completed logs, newest first, as
      `filter_by(habit_id=..., completed=True).order_by(date.desc())` returns them. */
  function CompletedDates(habitId: int, logs: seq<HabitLog>): seq<int>
  {
    if |logs| == 0 then []
    else
      var rest := CompletedDates(habitId, logs[1..]);
      if logs[0].habitId == habitId && logs[0].completed then Insert(logs[0].date, rest, NotOlder)
      else rest
  }

  /** The completed dates run newest first and are exactly the dates of the
      habit's completed logs, with repetitions. */
  lemma {:induction false} CompletedDatesOrdered(habitId: int, logs: seq<HabitLog>)
    ensures SortedBy(CompletedDates(habitId, logs), NotOlder)
    ensures multiset(CompletedDates(habitId, logs)) == CompletedDateBag(habitId, logs)
  {
    if |logs| > 0 {
      var rest := CompletedDates(habitId, logs[1..]);
      CompletedDatesOrdered(habitId, logs[1..]);
      if logs[0].habitId == habitId && logs[0].completed {
        NotOlderTotal();
        InsertSorted(logs[0].date, rest, NotOlder);
      }
    }
  }

  /** The bag holds one date per completed log of the habit. */
  lemma {:induction false} CompletedDateBagSize(habitId: int, logs: seq<HabitLog>)
    ensures |CompletedDateBag(habitId, logs)| == Count(logs, (l: HabitLog) => l.habitId == habitId && l.completed)
  {
    if |logs| > 0 {
      CompletedDateBagSize(habitId, logs[1..]);
    }
  }

  /** The bag holds exactly the dates of the habit's completed logs. */
  lemma {:induction false} CompletedDateBagMembers(habitId: int, logs: seq<HabitLog>, d: int)
    ensures d in CompletedDateBag(habitId, logs) <==>
            exists i :: 0 <= i < |logs| && logs[i].habitId == habitId && logs[i].completed && logs[i].date == d
  {
    if |logs| > 0 {
      var rest := logs[1..];
      CompletedDateBagMembers(habitId, rest, d);
      if d in CompletedDateBag(habitId, rest) {
        var j :| 0 <= j < |rest| && rest[j].habitId == habitId && rest[j].completed && rest[j].date == d;
        assert logs[j + 1] == rest[j];
      }
      if exists i :: 0 <= i < |logs| && logs[i].habitId == habitId && logs[i].completed && logs[i].date == d {
        var i :| 0 <= i < |logs| && logs[i].habitId == habitId && logs[i].completed && logs[i].date == d;
        if i > 0 {
          assert rest[i - 1] == logs[i];
        }
      }
    }
  }

  /** One date per completed log of the habit, and exactly their dates. */
  lemma CompletedDatesMeaning(habitId: int, logs: seq<HabitLog>)
    ensures |CompletedDates(habitId, logs)| == Count(logs, (l: HabitLog) => l.habitId == habitId && l.completed)
    ensures forall d :: d in CompletedDates(habitId, logs) <==>
              exists i :: 0 <= i < |logs| && logs[i].habitId == habitId && logs[i].completed && logs[i].date == d
  {
    var r := CompletedDates(habitId, logs);
    CompletedDatesOrdered(habitId, logs);
    CompletedDateBagSize(habitId, logs);
    assert |r| == |multiset(r)|;
    forall d
      ensures d in r <==> exists i :: 0 <= i < |logs| && logs[i].habitId == habitId && logs[i].completed && logs[i].date == d
    {
      assert d in r <==> d in multiset(r);
      CompletedDateBagMembers(habitId, logs, d);
    }
  }

  /** Habit.current_streak() */
  function HabitStreak(habitId: int, logs: seq<HabitLog>): nat
  {
    Streak(CompletedDates(habitId, logs))
  }

  /** The streak is 0 exactly when the habit has no completed log, and
      otherwise lies between 1 and the number of completed logs. */
  lemma HabitStreakBounds(habitId: int, logs: seq<HabitLog>)
    ensures HabitStreak(habitId, logs) == 0 <==>
            forall i :: 0 <= i < |logs| ==> !(logs[i].habitId == habitId && logs[i].completed)
    ensures HabitStreak(habitId, logs) <= Count(logs, (l: HabitLog) => l.habitId == habitId && l.completed)
  {
    CompletedDatesMeaning(habitId, logs);
    StreakCharacterised(CompletedDates(habitId, logs));
  }

  /** `[habit.current_streak() for habit in habits]` */
  function Streaks(habits: seq<Habit>, logs: seq<HabitLog>): (r: seq<int>)
    ensures |r| == |habits|
    ensures forall i {:trigger HabitStreak(habits[i].id, logs)} :: 0 <= i < |habits| ==> r[i] == HabitStreak(habits[i].id, logs)
  {
    if habits == [] then []
    else
      var rest := Streaks(habits[1..], logs);
      assert forall i :: 1 <= i < |habits| ==> habits[i] == habits[1..][i - 1];
      [HabitStreak(habits[0].id, logs)] + rest
  }

  /** The largest current streak over the habits, 0 with none. */
  function MaxStreak(habits: seq<Habit>, logs: seq<HabitLog>): (m: int)
    ensures m >= 0
    ensures forall i :: 0 <= i < |habits| ==> HabitStreak(habits[i].id, logs) <= m
    ensures habits != [] ==> exists i :: 0 <= i < |habits| && HabitStreak(habits[i].id, logs) == m
    ensures habits == [] ==> m == 0
  {
    var s := Streaks(habits, logs);
    var m := MaxOf(s);
    assert forall i :: 0 <= i < |habits| ==> s[i] == HabitStreak(habits[i].id, logs);
    m
  }

  /** Some habit's current streak reaches t. */
  predicate AnyStreakAtLeast(habits: seq<Habit>, logs: seq<HabitLog>, t: int)
  {
    var streaks := Streaks(habits, logs);
    exists i :: 0 <= i < |streaks| && streaks[i] >= t
  }

  // ---------------------------------------------------------------------
  // Habit.completion_rate

  function LogsOf(habitId: int, logs: seq<HabitLog>): seq<HabitLog>
  {
    Filter(logs, (l: HabitLog) => l.habitId == habitId)
  }

  /** `sum(1 for log in logs if log.completed)` */
  function CompletedCount(logs: seq<HabitLog>): nat
  {
    Count(logs, (l: HabitLog) => l.completed)
  }

  /** completed / total * 100, and 0 when the habit has no logs. */
  function Percent(completed: int, total: int): real
  {
    if total == 0 then 0.0 else (completed as real / total as real) * 100.0
  }

  /** A percentage of part over whole lies in [0, 100], is 0 exactly when
      the part is, and is 100 exactly when the part is the whole. */
  lemma PercentBounds(completed: int, total: int)
    requires 0 <= completed <= total
    ensures 0.0 <= Percent(completed, total) <= 100.0
    ensures Percent(completed, total) == 0.0 <==> completed == 0
    ensures Percent(completed, total) == 100.0 <==> (total > 0 && completed == total)
  {
    if total > 0 {
      var q := completed as real / total as real;
      assert q * total as real == completed as real;
      assert q <= 1.0;
    }
  }

  /** Habit.completion_rate() */
  function CompletionRate(habitId: int, logs: seq<HabitLog>): real
  {
    Percent(Count(logs, (l: HabitLog) => l.habitId == habitId && l.completed), Count(logs, (l: HabitLog) => l.habitId == habitId))
  }

  /** The rate lies in [0, 100]; it is 0 when the habit has no logs or none
      completed, and 100 exactly when it has logs and all are completed. */
  lemma CompletionRateBounds(habitId: int, logs: seq<HabitLog>)
    ensures 0.0 <= CompletionRate(habitId, logs) <= 100.0
    ensures CompletionRate(habitId, logs) == 0.0 <==>
            forall i :: 0 <= i < |logs| ==> !(logs[i].habitId == habitId && logs[i].completed)
    ensures CompletionRate(habitId, logs) == 100.0 <==>
            (exists i :: 0 <= i < |logs| && logs[i].habitId == habitId) &&
            (forall i :: 0 <= i < |logs| && logs[i].habitId == habitId ==> logs[i].completed)
  {
    var done := (l: HabitLog) => l.habitId == habitId && l.completed;
    var mine := (l: HabitLog) => l.habitId == habitId;
    CountImplies(logs, done, mine);
    PercentBounds(Count(logs, done), Count(logs, mine));
  }

  /** `round((completed / total) * 100) if total > 0 else 0` */
  function RoundedPercent(completed: int, total: int): int
  {
    if total > 0 then RoundHalfEven(completed as real / total as real * 100.0) else 0
  }

  /** A rounded percentage of part over whole lies in [0, 100]; it is 0
      when the part is 0 and 100 when the part is the whole. */
  lemma RoundedPercentBounds(completed: int, total: int)
    requires 0 <= completed <= total
    ensures 0 <= RoundedPercent(completed, total) <= 100
    ensures completed == 0 ==> RoundedPercent(completed, total) == 0
    ensures total > 0 && completed == total ==> RoundedPercent(completed, total) == 100
  {
    if total > 0 {
      PercentBounds(completed, total);
      assert completed as real / total as real * 100.0 == Percent(completed, total);
      RoundInRange(Percent(completed, total), 0, 100);
    }
  }

  /** The rounded completion rate of a list of logs. */
  function RoundedRate(logs: seq<HabitLog>): int
  {
    RoundedPercent(CompletedCount(logs), |logs|)
  }

  /** The rounded rate lies in [0, 100]; it is 0 without completed logs and
      100 when there are logs and all are completed. */
  lemma RoundedRateBounds(logs: seq<HabitLog>)
    ensures 0 <= RoundedRate(logs) <= 100
    ensures CompletedCount(logs) == 0 ==> RoundedRate(logs) == 0
    ensures logs != [] && CompletedCount(logs) == |logs| ==> RoundedRate(logs) == 100
  {
    RoundedPercentBounds(CompletedCount(logs), |logs|);
  }

  /** `[h.name.lower() for h in habits]` */
  function LowerNames(habits: seq<Habit>): (r: seq<string>)
    ensures |r| == |habits|
    ensures forall i :: 0 <= i < |habits| ==> r[i] == Lower(habits[i].name)
  {
    Map(habits, (h: Habit) => Lower(h.name))
  }

  // ---------------------------------------------------------------------
  // Log totals over a user's habits

  /** The completed logs of one habit (`log.completed for log in h.logs`). */
  function CompletedLogCount(habitId: int, logs: seq<HabitLog>): nat
  {
    Count(logs, (l: HabitLog) => l.habitId == habitId && l.completed)
  }

  /** `len(h.logs)` */
  function LogCount(habitId: int, logs: seq<HabitLog>): nat
  {
    Count(logs, (l: HabitLog) => l.habitId == habitId)
  }

  /** `sum(1 for h in habits for log in h.logs if log.completed)` */
  function CompletedHabitLogs(habits: seq<Habit>, logs: seq<HabitLog>): nat
  {
    if |habits| == 0 then 0
    else CompletedHabitLogs(habits[..|habits| - 1], logs) + CompletedLogCount(habits[|habits| - 1].id, logs)
  }

  /** `sum(len(h.logs) for h in habits)` */
  function HabitLogTotal(habits: seq<Habit>, logs: seq<HabitLog>): nat
  {
    if |habits| == 0 then 0
    else HabitLogTotal(habits[..|habits| - 1], logs) + LogCount(habits[|habits| - 1].id, logs)
  }

  /** One more habit of a prefix adds its logs to both totals. */
  lemma HabitLogTotalsStep(habits: seq<Habit>, logs: seq<HabitLog>, i: int)
    requires 0 <= i < |habits|
    ensures HabitLogTotal(habits[..i + 1], logs) == HabitLogTotal(habits[..i], logs) + LogCount(habits[i].id, logs)
    ensures CompletedHabitLogs(habits[..i + 1], logs) == CompletedHabitLogs(habits[..i], logs) + CompletedLogCount(habits[i].id, logs)
  {
    assert habits[..i + 1][..i] == habits[..i];
  }

  /** Every log of the habit is completed. */
  predicate AllLogsCompleted(habitId: int, logs: seq<HabitLog>)
  {
    forall j :: 0 <= j < |logs| && logs[j].habitId == habitId ==> logs[j].completed
  }

  /** Every log of every one of the habits is completed. */
  predicate HabitsAllCompleted(habits: seq<Habit>, logs: seq<HabitLog>)
  {
    forall i :: 0 <= i < |habits| ==> AllLogsCompleted(habits[i].id, logs)
  }

  /** One habit's completed logs are among its logs, and are all of them
      exactly when every one of its logs is completed. */
  lemma CompletedLogsOfOne(habitId: int, logs: seq<HabitLog>)
    ensures CompletedLogCount(habitId, logs) <= LogCount(habitId, logs)
    ensures CompletedLogCount(habitId, logs) == LogCount(habitId, logs) <==> AllLogsCompleted(habitId, logs)
  {
    CountImplies(logs, (l: HabitLog) => l.habitId == habitId && l.completed, (l: HabitLog) => l.habitId == habitId);
  }

  /** Over all habits, the completed logs are among the logs, and are all of
      them exactly when every log of every habit is completed. */
  lemma {:induction false} CompletedWithinTotal(habits: seq<Habit>, logs: seq<HabitLog>)
    ensures CompletedHabitLogs(habits, logs) <= HabitLogTotal(habits, logs)
    ensures CompletedHabitLogs(habits, logs) == HabitLogTotal(habits, logs) <==> HabitsAllCompleted(habits, logs)
  {
    if |habits| > 0 {
      var init := habits[..|habits| - 1];
      var last := habits[|habits| - 1];
      CompletedWithinTotal(init, logs);
      CompletedLogsOfOne(last.id, logs);
      HabitsAllCompletedSplit(habits, logs);
    }
  }

  lemma HabitsAllCompletedSplit(habits: seq<Habit>, logs: seq<HabitLog>)
    requires |habits| > 0
    ensures HabitsAllCompleted(habits, logs) <==>
            HabitsAllCompleted(habits[..|habits| - 1], logs) && AllLogsCompleted(habits[|habits| - 1].id, logs)
  {
    var init := habits[..|habits| - 1];
    assert forall i :: 0 <= i < |init| ==> init[i] == habits[i];
  }

  // ---------------------------------------------------------------------
  // ScreenTime.generate_from_logs

  /** The user's logs dated lo..hi inclusive. */
  function InWindow(logs: seq<ScreenTimeLog>, userId: int, lo: int, hi: int): seq<ScreenTimeLog>
  {
    Filter(logs, (l: ScreenTimeLog) => l.userId == userId && lo <= l.date <= hi)
  }

  function TotalMinutes(logs: seq<ScreenTimeLog>): int
  {
    SumBy(logs, (l: ScreenTimeLog) => l.minutes)
  }

  function LogDates(logs: seq<ScreenTimeLog>): set<int>
  {
    SetOf(logs, (l: ScreenTimeLog) => l.date)
  }

  /** (app_name, usage_minutes) per log, in log order. */
  function AppEntries(logs: seq<ScreenTimeLog>): seq<(string, int)>
  {
    Map(logs, (l: ScreenTimeLog) => (l.appName, l.minutes))
  }

  /** (date, usage_minutes) per log, in log order. */
  function DayEntries(logs: seq<ScreenTimeLog>): seq<(int, int)>
  {
    Map(logs, (l: ScreenTimeLog) => (l.date, l.minutes))
  }

  /** `total // len(unique_dates) if unique_dates else 0` */
  function FloorDailyAverage(logs: seq<ScreenTimeLog>): int
  {
    var days := |LogDates(logs)|;
    if days == 0 then 0 else TotalMinutes(logs) / days
  }

  predicate MoreMinutes(a: (string, int), b: (string, int)) { a.1 >= b.1 }

  lemma MoreMinutesTotal()
    ensures TotalPreorder(MoreMinutes)
  {
  }

  /** `max(app_usage.items(), key=lambda x: x[1])[0] if app_usage else 'None'` */
  function MostUsedApp(usage: seq<(string, int)>): string
  {
    if usage == [] then "None" else usage[FirstBest(usage, MoreMinutes)].0
  }

  /** `sorted(app_usage.items(), key=lambda x: x[1], reverse=True)[:n]` */
  function TopApps(logs: seq<ScreenTimeLog>, n: nat): seq<(string, int)>
  {
    Take(SortBy(TallyOf(AppEntries(logs)), MoreMinutes), n)
  }

  /** The per-app sums of `app_usage` add up to the total minutes. */
  lemma AppUsageTotal(logs: seq<ScreenTimeLog>)
    ensures Total(TallyOf(AppEntries(logs))) == TotalMinutes(logs)
  {
    var e := AppEntries(logs);
    TallyTotal(e);
    TotalPointwise(e, logs, (l: ScreenTimeLog) => l.minutes);
  }

  /** The top apps are min(n, #apps) apps of the logs, each with its summed
      minutes, in descending order of those sums; every app left off has a
      sum no larger than any app shown; the first is the most-used app. */
  lemma TopAppsProperties(logs: seq<ScreenTimeLog>, n: nat)
    ensures var r := TopApps(logs, n);
            var e := AppEntries(logs);
            |r| == Min(n, |Keys(e)|) &&
            SortedBy(r, MoreMinutes) &&
            (forall i :: 0 <= i < |r| ==> r[i].0 in Keys(e) && r[i].1 == SumFor(e, r[i].0)) &&
            (forall k, i :: k in Keys(e) && k !in Keys(r) && 0 <= i < |r| ==> SumFor(e, k) <= r[i].1) &&
            (r != [] ==> r[0].0 == MostUsedApp(TallyOf(e)))
  {
    var e := AppEntries(logs);
    var t := TallyOf(e);
    var s := SortBy(t, MoreMinutes);
    var r := Take(s, n);
    MoreMinutesTotal();
    TopOfSorted(t, n, MoreMinutes);
    TallyKeys(e);
    TallySize(e);
    TallyItems(e);
    forall i | 0 <= i < |r|
      ensures r[i].0 in Keys(e) && r[i].1 == SumFor(e, r[i].0)
    {
      assert r[i] == s[i];
      assert s[i] in multiset(t);
      var a :| 0 <= a < |t| && t[a] == s[i];
    }
    forall k, i | k in Keys(e) && k !in Keys(r) && 0 <= i < |r|
      ensures SumFor(e, k) <= r[i].1
    {
      var a :| 0 <= a < |t| && t[a].0 == k;
      assert t[a] !in r;
      LeftOffRanksLower(t, n, MoreMinutes, t[a]);
    }
    if r != [] {
      SortHeadIsFirstBest(t, MoreMinutes);
    }
  }

  /** `int((avg - prev) / prev * 100)` when prev > 0, else 0. */
  function WeeklyChange(average: int, previousAverage: int): int
  {
    if previousAverage > 0 then
      Trunc(((average - previousAverage) as real / previousAverage as real) * 100.0)
    else 0
  }

  /** The aggregate generate_from_logs computes for (user, today): None when
      the user has no log dated today - 7 .. today. */
  function DailySummary(userId: int, today: int, logs: seq<ScreenTimeLog>): Option<ScreenTime>
  {
    var current := InWindow(logs, userId, today - 7, today);
    var previous := InWindow(logs, userId, today - 14, today - 8);
    if current == [] then None
    else
      Some(ScreenTime(userId, today, FloorDailyAverage(current),
                      MostUsedApp(TallyOf(AppEntries(current))),
                      WeeklyChange(FloorDailyAverage(current), FloorDailyAverage(previous))))
  }

  /** There is a summary exactly when the current week has a log; its daily
      average is the floor of the minutes over the days seen; and the
      weekly change is 0 when the week before has no log or a zero average. */
  lemma DailySummaryProperties(userId: int, today: int, logs: seq<ScreenTimeLog>)
    ensures var current := InWindow(logs, userId, today - 7, today);
            DailySummary(userId, today, logs).None? <==> current == []
    ensures var current := InWindow(logs, userId, today - 7, today);
            var days := |LogDates(current)|;
            DailySummary(userId, today, logs).Some? ==>
              days >= 1 &&
              DailySummary(userId, today, logs).value.dailyAverage * days <= TotalMinutes(current) <
              (DailySummary(userId, today, logs).value.dailyAverage + 1) * days
    ensures var previous := InWindow(logs, userId, today - 14, today - 8);
            DailySummary(userId, today, logs).Some? && (previous == [] || FloorDailyAverage(previous) <= 0) ==>
              DailySummary(userId, today, logs).value.weeklyChange == 0
  {
    var current := InWindow(logs, userId, today - 7, today);
    if current != [] {
      SetOfNonEmpty(current, (l: ScreenTimeLog) => l.date);
    }
  }

  /** The most-used app is an app of the current week whose summed minutes
      are at least every other app's sum. */
  lemma MostUsedAppIsMaximal(userId: int, today: int, logs: seq<ScreenTimeLog>)
    requires DailySummary(userId, today, logs).Some?
    ensures var current := InWindow(logs, userId, today - 7, today);
            var app := DailySummary(userId, today, logs).value.mostUsedApp;
            (exists i :: 0 <= i < |current| && current[i].appName == app) &&
            forall i :: 0 <= i < |current| ==>
              SumFor(AppEntries(current), app) >= SumFor(AppEntries(current), current[i].appName)
  {
    var current := InWindow(logs, userId, today - 7, today);
    var e := AppEntries(current);
    var usage := TallyOf(e);
    TallyKeys(e);
    TallyItems(e);
    assert e[0].0 in Keys(e);
    assert usage != [];
    MoreMinutesTotal();
    FirstBestIsFirstMaximum(usage, MoreMinutes);
    var b := FirstBest(usage, MoreMinutes);
    var app := usage[b].0;
    assert app in Keys(e);
    var w :| 0 <= w < |e| && e[w].0 == app;
    assert current[w].appName == app;
    forall i | 0 <= i < |current|
      ensures SumFor(e, app) >= SumFor(e, current[i].appName)
    {
      assert e[i].0 == current[i].appName;
      assert e[i].0 in Keys(usage);
      var j :| 0 <= j < |usage| && usage[j].0 == e[i].0;
      assert MoreMinutes(usage[b], usage[j]);
    }
  }

  /** The weekly change is the truncated percentage change of the average. */
  lemma WeeklyChangeSign(average: int, previousAverage: int)
    requires previousAverage > 0
    ensures average > previousAverage ==> WeeklyChange(average, previousAverage) >= 0
    ensures average < previousAverage ==> WeeklyChange(average, previousAverage) <= 0
    ensures average == previousAverage ==> WeeklyChange(average, previousAverage) == 0
    ensures average >= 0 ==> WeeklyChange(average, previousAverage) >= -100
  {
    var x := ((average - previousAverage) as real / previousAverage as real) * 100.0;
    if average >= 0 {
      var n, d := (average - previousAverage) as real, previousAverage as real;
      assert n == average as real - d >= -d;
      QuotientBelow(n, d, -1.0);
      assert x >= -100.0;
      TruncMonotone(-100.0, x);
    }
    if average > previousAverage {
      TruncMonotone(0.0, x);
    }
    if average < previousAverage {
      TruncMonotone(x, 0.0);
    }
  }

  /** The index of the first row for (user, date), the row that
      `filter_by(user_id=..., date=...).first()` returns, or -1. */
  function FindRow(rows: seq<ScreenTime>, userId: int, date: int): (i: int)
    ensures -1 <= i < |rows|
    ensures i == -1 <==> forall j :: 0 <= j < |rows| ==> !(rows[j].userId == userId && rows[j].date == date)
    ensures i >= 0 ==> rows[i].userId == userId && rows[i].date == date &&
                       forall j :: 0 <= j < i ==> !(rows[j].userId == userId && rows[j].date == date)
  {
    if rows == [] then -1
    else if rows[0].userId == userId && rows[0].date == date then 0
    else
      var k := FindRow(rows[1..], userId, date);
      if k == -1 then -1 else k + 1
  }

  /** Create the row, or update the first existing row for its (user, date). */
  function Upsert(rows: seq<ScreenTime>, s: ScreenTime): seq<ScreenTime>
  {
    PutAt(rows, FindRow(rows, s.userId, s.date), s)
  }

  function RowsFor(rows: seq<ScreenTime>, userId: int, date: int): nat
  {
    Count(rows, (r: ScreenTime) => r.userId == userId && r.date == date)
  }

  /** The upsert leaves every other row as it was, holds s afterwards, adds
      a row only when none existed for (user, date), and so keeps at most
      one row per (user, date): with at most one before there is exactly
      one after. */
  lemma UpsertProperties(rows: seq<ScreenTime>, s: ScreenTime)
    ensures var r := Upsert(rows, s);
            (|r| == |rows| || |r| == |rows| + 1) && s in r &&
            (forall j :: 0 <= j < |rows| && !(rows[j].userId == s.userId && rows[j].date == s.date) ==> r[j] == rows[j]) &&
            (|r| == |rows| + 1 <==> RowsFor(rows, s.userId, s.date) == 0)
    ensures RowsFor(rows, s.userId, s.date) <= 1 ==> RowsFor(Upsert(rows, s), s.userId, s.date) == 1
  {
    var key := (r: ScreenTime) => r.userId == s.userId && r.date == s.date;
    var i := FindRow(rows, s.userId, s.date);
    PutAtProperties(rows, key, i, s);
  }

  /** A ScreenTime table with the generate_from_logs operation. */
  class ScreenTimeStore {
    var rows: seq<ScreenTime>

    constructor (initial: seq<ScreenTime>)
      ensures rows == initial
    {
      rows := initial;
    }

    /** The scan behind `filter_by(user_id=..., date=...).first()`. */
    method Locate(userId: int, date: int) returns (i: int)
      ensures i == FindRow(rows, userId, date)
    {
      i := 0;
      while i < |rows| && !(rows[i].userId == userId && rows[i].date == date)
        invariant 0 <= i <= |rows|
        invariant forall j :: 0 <= j < i ==> !(rows[j].userId == userId && rows[j].date == date)
      {
        i := i + 1;
      }
      if i == |rows| {
        i := -1;
      }
    }

    /** ScreenTime.generate_from_logs(user_id): aggregates the logs and
        creates or updates the row for (user, today); with no log in the
        current week it returns None and writes nothing. */
    method GenerateFromLogs(userId: int, today: int, logs: seq<ScreenTimeLog>) returns (r: Option<ScreenTime>)
      modifies this
      ensures r == DailySummary(userId, today, logs)
      ensures r.None? ==> rows == old(rows)
      ensures r.Some? ==> rows == Upsert(old(rows), r.value)
    {
      var current := InWindow(logs, userId, today - 7, today);
      var previous := InWindow(logs, userId, today - 14, today - 8);
      if current == [] {
        return None;
      }
      var average := FloorDailyAverage(current);
      var usage := Build(AppEntries(current));
      var mostUsed := MostUsedApp(usage);
      var change := WeeklyChange(average, FloorDailyAverage(previous));
      var row := ScreenTime(userId, today, average, mostUsed, change);
      var i := Locate(userId, today);
      if i == -1 {
        rows := rows + [row];
      } else {
        rows := rows[i := row];
      }
      r := Some(row);
    }
  }
}
