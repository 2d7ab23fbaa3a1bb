/** The home page of a signed-in user: the summed streaks, the completion
    rate of the past week, and the screen time of the past week with its
    five most-used apps. Dates are day numbers; `today` is a parameter. */
module Dashboard {
  import opened Lists
  import opened Numerics
  import opened Tally
  import opened Sorting
  import opened Models
  import Insights

  /** `sum(habit.current_streak() for habit in habits) if habits else 0` */
  function TotalStreak(habits: seq<Habit>, logs: seq<HabitLog>): int
  {
    if habits == [] then 0 else Sum(Streaks(habits, logs))
  }

  /** The summed streak is 0 without habits, at least the longest single
      streak, and 0 exactly when no habit has a streak. */
  lemma TotalStreakMeaning(habits: seq<Habit>, logs: seq<HabitLog>)
    ensures habits == [] ==> TotalStreak(habits, logs) == 0
    ensures TotalStreak(habits, logs) >= MaxStreak(habits, logs)
    ensures TotalStreak(habits, logs) == 0 <==>
              forall i :: 0 <= i < |habits| ==> HabitStreak(habits[i].id, logs) == 0
  {
    var s := Streaks(habits, logs);
    assert forall i :: 0 <= i < |s| ==> s[i] == HabitStreak(habits[i].id, logs) >= 0;
    SumOfNonNegatives(s);
    if habits != [] {
      var k :| 0 <= k < |habits| && HabitStreak(habits[k].id, logs) == MaxStreak(habits, logs);
      assert s[k] == HabitStreak(habits[k].id, logs);
    }
  }

  /** The user's habit logs dated from a week before today on, newest first
      (`recent_logs`). */
  function RecentWeekLogs(userId: int, today: int, logs: seq<HabitLog>): seq<HabitLog>
  {
    SortBy(Filter(logs, (l: HabitLog) => l.userId == userId && l.date >= today - 7), Insights.NewerLog)
  }

  /** The recent logs are exactly the user's logs of the window, newest
      first. */
  lemma RecentWeekLogsMeaning(userId: int, today: int, logs: seq<HabitLog>)
    ensures var r := RecentWeekLogs(userId, today, logs);
            var w := Filter(logs, (l: HabitLog) => l.userId == userId && l.date >= today - 7);
            multiset(r) == multiset(w) &&
            SortedBy(r, Insights.NewerLog) &&
            (forall x :: x in r <==> x in logs && x.userId == userId && x.date >= today - 7)
  {
    var w := Filter(logs, (l: HabitLog) => l.userId == userId && l.date >= today - 7);
    Insights.NewerLogTotal();
    SortBySorted(w, Insights.NewerLog);
    FilterMembers(logs, (l: HabitLog) => l.userId == userId && l.date >= today - 7);
    var r := RecentWeekLogs(userId, today, logs);
    forall x ensures x in r <==> x in w {
      assert x in r <==> x in multiset(r);
      assert x in w <==> x in multiset(w);
    }
  }

  /** The user's habit logs of the past week, today included
      (`past_week_logs`). */
  function WeekLogs(userId: int, today: int, logs: seq<HabitLog>): seq<HabitLog>
  {
    Filter(logs, (l: HabitLog) => l.userId == userId && today - 7 <= l.date <= today)
  }

  /** `completion_rate`: the rounded percentage of the week's logs that are
      completed, 0 without logs. */
  function CompletionRate(userId: int, today: int, logs: seq<HabitLog>): int
  {
    var week := WeekLogs(userId, today, logs);
    if week == [] then 0 else RoundedRate(week)
  }

  /** The week's rate lies in [0, 100]; it is 0 when no log of the week is
      completed (or there is none) and 100 when every one is. */
  lemma CompletionRateMeaning(userId: int, today: int, logs: seq<HabitLog>)
    ensures 0 <= CompletionRate(userId, today, logs) <= 100
    ensures (forall i :: 0 <= i < |logs| && logs[i].userId == userId && today - 7 <= logs[i].date <= today
               ==> !logs[i].completed)
            ==> CompletionRate(userId, today, logs) == 0
    ensures (WeekLogs(userId, today, logs) != [] &&
             forall i :: 0 <= i < |logs| && logs[i].userId == userId && today - 7 <= logs[i].date <= today
               ==> logs[i].completed)
            ==> CompletionRate(userId, today, logs) == 100
  {
    var week := WeekLogs(userId, today, logs);
    RoundedRateBounds(week);
    FilterMembers(logs, (l: HabitLog) => l.userId == userId && today - 7 <= l.date <= today);
  }

  /** The user's screen-time logs dated from a week before today on
      (`screen_time`; no upper bound on the date). */
  function ScreenWeek(userId: int, today: int, logs: seq<ScreenTimeLog>): seq<ScreenTimeLog>
  {
    Filter(logs, (l: ScreenTimeLog) => l.userId == userId && l.date >= today - 7)
  }

  datatype HomeView = HomeView(totalStreak: int, completionRate: int, totalScreenTime: int, topApps: seq<(string, int)>)

  /** The home route: the app_usage loop over the week's screen time, then
      the five apps with the most minutes. */
  method Home(userId: int, today: int, habits: seq<Habit>, habitLogs: seq<HabitLog>, screenLogs: seq<ScreenTimeLog>)
    returns (v: HomeView)
    ensures v.totalStreak == TotalStreak(habits, habitLogs)
    ensures v.completionRate == CompletionRate(userId, today, habitLogs)
    ensures v.totalScreenTime == TotalMinutes(ScreenWeek(userId, today, screenLogs))
    ensures v.topApps == TopApps(ScreenWeek(userId, today, screenLogs), 5)
  {
    var screen := ScreenWeek(userId, today, screenLogs);
    var usage := Build(AppEntries(screen));
    v := HomeView(TotalStreak(habits, habitLogs), CompletionRate(userId, today, habitLogs),
                  TotalMinutes(screen), Take(SortBy(usage, MoreMinutes), 5));
  }

  /** The week's screen time is the sum over its apps, and the top apps
      are at most five of them, each with its summed minutes, most-used
      first, none left off with more minutes than one shown. */
  lemma ScreenSummaryMeaning(userId: int, today: int, logs: seq<ScreenTimeLog>)
    ensures var screen := ScreenWeek(userId, today, logs);
            var top := TopApps(screen, 5);
            var e := AppEntries(screen);
            Total(TallyOf(e)) == TotalMinutes(screen) &&
            |top| == Min(5, |Keys(e)|) &&
            SortedBy(top, MoreMinutes) &&
            (forall i :: 0 <= i < |top| ==> top[i].0 in Keys(e) && top[i].1 == SumFor(e, top[i].0)) &&
            (forall k, i :: k in Keys(e) && k !in Keys(top) && 0 <= i < |top| ==> SumFor(e, k) <= top[i].1)
  {
    var screen := ScreenWeek(userId, today, logs);
    AppUsageTotal(screen);
    TopAppsProperties(screen, 5);
  }
}
