/** The insight generators of app/insights/routes.py: habit suggestions,
    the dropout prediction, the digital-wellbeing score and its bands, the
    habit / screen-time correlations, the personalised recommendations and
    the weekly report. The texts they produce are modelled by tags. */
module Insights {
  import opened Text
  import opened Lists
  import opened Numerics
  import opened Tally
  import opened Sorting
  import opened Models

  // ---------------------------------------------------------------------
  // generate_habit_suggestions

  datatype Suggestion = TrackMoreHabits | DigitalDetoxHabit | ExerciseHabit | ReadingHabit | MeditationHabit

  /** The position of a suggestion's rule in the order the rules append. */
  function SuggestionRank(s: Suggestion): int
  {
    match s
    case TrackMoreHabits => 0
    case DigitalDetoxHabit => 1
    case ExerciseHabit => 2
    case ReadingHabit => 3
    case MeditationHabit => 4
  }


  /** `any(w in h for h in habit_names)` for some w of the words, where
      habit_names are the lowercased habit names. */
  predicate SomeNameContains(habits: seq<Habit>, words: seq<string>)
  {
    exists i :: 0 <= i < |habits| && ContainsAny(Lower(habits[i].name), words)
  }

  /** The rules of generate_habit_suggestions, in the order they append. */
  function SuggestionRules(habits: seq<Habit>, screenLogs: seq<ScreenTimeLog>): seq<(Suggestion, bool)>
  {
    [(TrackMoreHabits, |habits| < 3),
     (DigitalDetoxHabit, TotalMinutes(screenLogs) > 180),
     (ExerciseHabit, !SomeNameContains(habits, ["exercise", "workout"])),
     (ReadingHabit, !SomeNameContains(habits, ["read"])),
     (MeditationHabit, !SomeNameContains(habits, ["meditat"]))]
  }

  /** Each suggestion is given exactly when its rule fires, once, and the
      suggestions follow the order of the rules. */
  lemma SuggestionRulesMeaning(habits: seq<Habit>, screenLogs: seq<ScreenTimeLog>)
    ensures var s := Fired(SuggestionRules(habits, screenLogs));
            (TrackMoreHabits in s <==> |habits| < 3) &&
            (DigitalDetoxHabit in s <==> TotalMinutes(screenLogs) > 180) &&
            (ExerciseHabit in s <==> !SomeNameContains(habits, ["exercise", "workout"])) &&
            (ReadingHabit in s <==> !SomeNameContains(habits, ["read"])) &&
            (MeditationHabit in s <==> !SomeNameContains(habits, ["meditat"])) &&
            (forall i, j :: 0 <= i < j < |s| ==> SuggestionRank(s[i]) < SuggestionRank(s[j])) &&
            |s| <= 5
  {
    var rules := SuggestionRules(habits, screenLogs);
    forall i | 0 <= i < |rules|
      ensures SuggestionRank(rules[i].0) == i
    {
      if i == 0 {} else if i == 1 {} else if i == 2 {} else if i == 3 {}
    }
    FiredItem(rules, SuggestionRank, 0);
    FiredItem(rules, SuggestionRank, 1);
    FiredItem(rules, SuggestionRank, 2);
    FiredItem(rules, SuggestionRank, 3);
    FiredItem(rules, SuggestionRank, 4);
    FiredKeepsOrder(rules, SuggestionRank);
  }

  /** The appends of generate_habit_suggestions give the suggestions of the
      rules that fire, in rule order (SuggestionRulesMeaning says what that
      list holds). */
  method HabitSuggestions(habits: seq<Habit>, screenLogs: seq<ScreenTimeLog>) returns (suggestions: seq<Suggestion>)
    ensures suggestions == Fired(SuggestionRules(habits, screenLogs))
  {
    ghost var rules := SuggestionRules(habits, screenLogs);
    suggestions := [];
    if |habits| < 3 {
      suggestions := suggestions + [TrackMoreHabits];
    }
    assert rules[..1][..0] == rules[..0];
    assert suggestions == Fired(rules[..1]);
    var totalScreenTime := TotalMinutes(screenLogs);
    if totalScreenTime > 180 {
      suggestions := suggestions + [DigitalDetoxHabit];
    }
    assert rules[..2][..1] == rules[..1];
    assert suggestions == Fired(rules[..2]);
    if !SomeNameContains(habits, ["exercise", "workout"]) {
      suggestions := suggestions + [ExerciseHabit];
    }
    assert rules[..3][..2] == rules[..2];
    assert suggestions == Fired(rules[..3]);
    if !SomeNameContains(habits, ["read"]) {
      suggestions := suggestions + [ReadingHabit];
    }
    assert rules[..4][..3] == rules[..3];
    assert suggestions == Fired(rules[..4]);
    if !SomeNameContains(habits, ["meditat"]) {
      suggestions := suggestions + [MeditationHabit];
    }
    assert rules[..5][..4] == rules[..4];
    assert rules[..5] == rules;
  }

  // ---------------------------------------------------------------------
  // predict_habit_dropout

  datatype Dropout = NotEnoughData | LowCompletion(rate: real) | OnTrack

  predicate NewerLog(a: HabitLog, b: HabitLog) { a.date >= b.date }

  lemma NewerLogTotal()
    ensures TotalPreorder(NewerLog)
  {
  }

  /** `filter_by(habit_id=...).order_by(date.desc()).limit(10)` */
  function LastTenLogs(habitId: int, logs: seq<HabitLog>): seq<HabitLog>
  {
    Take(SortBy(LogsOf(habitId, logs), NewerLog), 10)
  }

  /** The prediction from the recent logs. */
  function DropoutOf(recent: seq<HabitLog>): Dropout
  {
    if |recent| < 3 then NotEnoughData
    else
      var rate := CompletedCount(recent) as real / |recent| as real;
      if rate < 0.3 then LowCompletion(rate) else OnTrack
  }

  function PredictDropout(habitId: int, logs: seq<HabitLog>): Dropout
  {
    DropoutOf(LastTenLogs(habitId, logs))
  }

  /** The prediction reads the ten newest logs of the habit, all of them
      when it has fewer. */
  lemma LastTenLogsAreNewest(habitId: int, logs: seq<HabitLog>)
    ensures var mine := LogsOf(habitId, logs);
            var recent := LastTenLogs(habitId, logs);
            |recent| == Min(10, |mine|) &&
            multiset(recent) <= multiset(mine) &&
            (forall i, j :: 0 <= i < |recent| && 0 <= j < |mine| && mine[j] !in recent ==> recent[i].date >= mine[j].date)
  {
    NewerLogTotal();
    TopKeepsHighest(LogsOf(habitId, logs), 10, NewerLog);
  }

  /** Fewer than three logs is not enough data; otherwise dropout is
      predicted exactly when under 30% of the logs are completed. */
  lemma DropoutOfMeaning(recent: seq<HabitLog>)
    ensures DropoutOf(recent) == NotEnoughData <==> |recent| < 3
    ensures DropoutOf(recent).LowCompletion? <==>
              |recent| >= 3 && 10 * CompletedCount(recent) < 3 * |recent|
  {
    if |recent| >= 3 {
      var c := CompletedCount(recent);
      QuotientBelow(c as real, |recent| as real, 0.3);
    }
  }

  /** A habit with fewer than three logs is never judged. */
  lemma PredictDropoutMeaning(habitId: int, logs: seq<HabitLog>)
    ensures PredictDropout(habitId, logs) == NotEnoughData <==> |LogsOf(habitId, logs)| < 3
  {
    DropoutOfMeaning(LastTenLogs(habitId, logs));
  }

  // ---------------------------------------------------------------------
  // generate_wellbeing_insights

  /** `total_screen_time / 7 if screen_time_logs else 0` */
  function WeekAverage(screenLogs: seq<ScreenTimeLog>): real
  {
    if screenLogs == [] then 0.0 else TotalMinutes(screenLogs) as real / 7.0
  }

  /** The score before int(): 100 less a point per 15 minutes of daily
      average, floored at 0, plus 15 with an active detox plan, plus 3 per
      app limit up to 15, capped at 100. */
  function RawWellbeing(average: real, hasActivePlan: bool, limitCount: nat): real
  {
    var base := MaxReal(0.0, 100.0 - average / 15.0);
    var detoxBonus := if hasActivePlan then 15.0 else 0.0;
    var limitBonus := Min(15, limitCount * 3) as real;
    MinReal(100.0, base + detoxBonus + limitBonus)
  }

  function WellbeingScore(average: real, hasActivePlan: bool, limitCount: nat): int
  {
    Trunc(RawWellbeing(average, hasActivePlan, limitCount))
  }

  datatype Summary = Excellent | Good | NeedsAttention | Urgent

  /** The summary band of a score: 80, 60 and 40 and up. */
  function SummaryOf(score: real): Summary
  {
    if score >= 80.0 then Excellent
    else if score >= 60.0 then Good
    else if score >= 40.0 then NeedsAttention
    else Urgent
  }

  /** The score lies in [0, 100], is 100 with no screen time, and banding
      the untruncated score (as the source does) or the stored integer
      score gives the same summary. */
  lemma WellbeingScoreBounds(average: real, hasActivePlan: bool, limitCount: nat)
    ensures 0 <= WellbeingScore(average, hasActivePlan, limitCount) <= 100
    ensures average <= 0.0 ==> WellbeingScore(average, hasActivePlan, limitCount) == 100
    ensures SummaryOf(RawWellbeing(average, hasActivePlan, limitCount)) ==
            SummaryOf(WellbeingScore(average, hasActivePlan, limitCount) as real)
  {
    var raw := RawWellbeing(average, hasActivePlan, limitCount);
    assert 0.0 <= raw <= 100.0;
    TruncMonotone(0.0, raw);
    TruncMonotone(raw, 100.0);
  }

  /** More screen time never raises the score; an active plan and more
      limits never lower it. */
  lemma WellbeingScoreMonotone(a1: real, a2: real, p1: bool, p2: bool, n1: nat, n2: nat)
    requires a1 <= a2 && (p2 ==> p1) && n2 <= n1
    ensures WellbeingScore(a2, p2, n2) <= WellbeingScore(a1, p1, n1)
  {
    assert Min(15, n2 * 3) <= Min(15, n1 * 3);
    TruncMonotone(RawWellbeing(a2, p2, n2), RawWellbeing(a1, p1, n1));
  }

  datatype Trend = FallingFast | Falling | RisingSlowly | RisingFast | NoTrend

  /** The trend band of the regression slope over the logs; the slope
      itself is an input (see README). Three logs on at least two dates are
      needed. */
  function TrendOf(screenLogs: seq<ScreenTimeLog>, slope: real): Trend
  {
    if |screenLogs| >= 3 && |LogDates(screenLogs)| > 1 then
      if slope < -10.0 then FallingFast
      else if slope < 0.0 then Falling
      else if slope < 10.0 then RisingSlowly
      else RisingFast
    else NoTrend
  }

  function TrendRank(t: Trend): int
  {
    match t
    case FallingFast => 0
    case Falling => 1
    case RisingSlowly => 2
    case RisingFast => 3
    case NoTrend => -1
  }

  /** A trend is reported exactly with three logs on two or more dates, and
      a steeper slope never gives a lower band. */
  lemma TrendMonotone(screenLogs: seq<ScreenTimeLog>, s1: real, s2: real)
    requires s1 <= s2
    ensures TrendOf(screenLogs, s1) == NoTrend <==> !(|screenLogs| >= 3 && |LogDates(screenLogs)| >= 2)
    ensures TrendOf(screenLogs, s1) != NoTrend ==> TrendRank(TrendOf(screenLogs, s1)) <= TrendRank(TrendOf(screenLogs, s2))
  {
  }

  datatype DetoxImpact = PlanHelping | SuggestPlan | NoDetoxData

  function DetoxImpactOf(screenLogs: seq<ScreenTimeLog>, activePlans: seq<DetoxPlan>): DetoxImpact
  {
    if activePlans != [] then PlanHelping
    else if |screenLogs| > 0 then SuggestPlan
    else NoDetoxData
  }

  datatype LimitEffect = Effective | SomewhatEffective | Ineffective | NoUsageData | SetLimits

  /** `[limit.app_name for limit in app_limits]` */
  function LimitedApps(limits: seq<AppLimit>): seq<string>
  {
    Map(limits, (x: AppLimit) => x.appName)
  }

  /** The minutes spent in apps that have a limit. */
  function LimitedMinutes(screenLogs: seq<ScreenTimeLog>, limits: seq<AppLimit>): int
  {
    var apps := LimitedApps(limits);
    SumBy(screenLogs, (l: ScreenTimeLog) => if l.appName in apps then l.minutes else 0)
  }

  function LimitEffectOf(screenLogs: seq<ScreenTimeLog>, limits: seq<AppLimit>): LimitEffect
  {
    if limits != [] && screenLogs != [] then
      var total := TotalMinutes(screenLogs);
      if total > 0 then
        var share := LimitedMinutes(screenLogs, limits) as real / total as real * 100.0;
        if share < 30.0 then Effective
        else if share < 60.0 then SomewhatEffective
        else Ineffective
      else NoUsageData
    else SetLimits
  }

  /** With limits and some usage, the limits are judged by the share of
      minutes spent in limited apps: effective under 30%, ineffective from
      60%; so they are effective when no limited app was used and
      ineffective when only limited apps were. */
  lemma LimitEffectMeaning(screenLogs: seq<ScreenTimeLog>, limits: seq<AppLimit>)
    requires forall i :: 0 <= i < |screenLogs| ==> screenLogs[i].minutes >= 0
    requires limits != [] && TotalMinutes(screenLogs) > 0
    ensures var limited := LimitedMinutes(screenLogs, limits);
            var total := TotalMinutes(screenLogs);
            0 <= limited <= total &&
            (LimitEffectOf(screenLogs, limits) == Effective <==> 10 * limited < 3 * total) &&
            (LimitEffectOf(screenLogs, limits) == Ineffective <==> 10 * limited >= 6 * total)
    ensures (forall i :: 0 <= i < |screenLogs| ==> screenLogs[i].appName !in LimitedApps(limits)) ==>
              LimitEffectOf(screenLogs, limits) == Effective
    ensures (forall i :: 0 <= i < |screenLogs| ==> screenLogs[i].appName in LimitedApps(limits)) ==>
              LimitEffectOf(screenLogs, limits) == Ineffective
  {
    var apps := LimitedApps(limits);
    var inLimited := (l: ScreenTimeLog) => if l.appName in apps then l.minutes else 0;
    var minutes := (l: ScreenTimeLog) => l.minutes;
    SumByMonotone(screenLogs, inLimited, minutes);
    SumByNonNegative(screenLogs, inLimited);
    if forall i :: 0 <= i < |screenLogs| ==> screenLogs[i].appName !in apps {
      SumByZero(screenLogs, inLimited);
    }
    var limited := LimitedMinutes(screenLogs, limits);
    var total := TotalMinutes(screenLogs);
    QuotientBelow(limited as real, total as real, 0.3);
    QuotientBelow(limited as real, total as real, 0.6);
  }

  datatype WellbeingInsights = WellbeingInsights(
    summary: Summary, trend: Trend, detoxImpact: DetoxImpact, limitEffect: LimitEffect, score: int)

  /** generate_wellbeing_insights over the week's logs, the active plans and
      the limits, with the regression slope as an input. */
  function WellbeingInsightsOf(screenLogs: seq<ScreenTimeLog>, activePlans: seq<DetoxPlan>,
                               limits: seq<AppLimit>, slope: real): WellbeingInsights
  {
    var raw := RawWellbeing(WeekAverage(screenLogs), activePlans != [], |limits|);
    WellbeingInsights(SummaryOf(raw), TrendOf(screenLogs, slope), DetoxImpactOf(screenLogs, activePlans),
                      LimitEffectOf(screenLogs, limits), Trunc(raw))
  }

  /** The stored score lies in [0, 100] and the summary is the band of that
      score; a user without screen time scores 100. */
  lemma WellbeingInsightsProperties(screenLogs: seq<ScreenTimeLog>, activePlans: seq<DetoxPlan>,
                                    limits: seq<AppLimit>, slope: real)
    ensures var w := WellbeingInsightsOf(screenLogs, activePlans, limits, slope);
            0 <= w.score <= 100 && w.summary == SummaryOf(w.score as real) &&
            (TotalMinutes(screenLogs) <= 0 ==> w.score == 100 && w.summary == Excellent)
  {
    WellbeingScoreBounds(WeekAverage(screenLogs), activePlans != [], |limits|);
  }

  // ---------------------------------------------------------------------
  // calculate_habit_screen_time_correlations

  datatype CorrelationNote =
    | MeditationSample
    | HabitNote(lessScreenTime: bool, percent: int)
    | NoStrongCorrelation

  datatype Correlation = Correlation(title: string, note: CorrelationNote, strength: int)

  /** The placeholder shown with too few habits or screen logs. */
  const MeditationSampleEntry := Correlation("Meditation & Screen Time", MeditationSample, 65)

  /** The placeholder shown when no habit correlates strongly. */
  const NoCorrelationEntry := Correlation("Habits & Screen Time", NoStrongCorrelation, 30)

  /** The summed screen minutes of the days, in log order, on which the habit
      was logged with the given completion flag and screen time was
      recorded. */
  function DayMinutes(byDate: seq<(int, int)>, habitLogs: seq<HabitLog>, completed: bool): seq<int>
  {
    if habitLogs == [] then []
    else
      var last := habitLogs[|habitLogs| - 1];
      var prev := DayMinutes(byDate, habitLogs[..|habitLogs| - 1], completed);
      if last.date in Keys(byDate) && last.completed == completed then prev + [Lookup(byDate, last.date)] else prev
  }

  function Mean(s: seq<int>): real
    requires |s| > 0
  {
    Sum(s) as real / |s| as real
  }

  /** The difference of the two means relative to the mean of the days the
      habit was missed, in percent; 0 when that mean is not positive. */
  function PercentDiff(completedMean: real, missedMean: real): real
  {
    if missedMean > 0.0 then (missedMean - completedMean) / missedMean * 100.0 else 0.0
  }

  /** The correlation entry of one habit, if it has one. */
  function HabitCorrelation(h: Habit, logs: seq<HabitLog>, byDate: seq<(int, int)>): Option<Correlation>
  {
    var habitLogs := LogsOf(h.id, logs);
    if |habitLogs| < 3 then None
    else
      var done := DayMinutes(byDate, habitLogs, true);
      var missed := DayMinutes(byDate, habitLogs, false);
      if |done| < 2 || |missed| < 2 then None
      else
        var diff := PercentDiff(Mean(done), Mean(missed));
        if AbsReal(diff) > 10.0 then
          Some(Correlation(h.name + " & Screen Time", HabitNote(diff > 0.0, Abs(Trunc(diff))),
                           Min(100, Abs(Trunc(diff * 1.5)))))
        else None
  }

  /** The values f gives, in order, skipping the elements it gives none
      for: the loop that appends an entry whenever there is one. */
  function Somes<T, U>(s: seq<T>, f: T -> Option<U>): seq<U>
  {
    if |s| == 0 then []
    else
      var prev := Somes(s[..|s| - 1], f);
      match f(s[|s| - 1])
      case Some(c) => prev + [c]
      case None => prev
  }

  /** An element of Somes(s, f) is exactly a value f gives for some element. */
  lemma {:induction false} SomesExact<T, U>(s: seq<T>, f: T -> Option<U>)
    ensures forall c :: c in Somes(s, f) <==> exists i :: 0 <= i < |s| && f(s[i]) == Some(c)
  {
    if |s| > 0 {
      var init := s[..|s| - 1];
      SomesExact(init, f);
      assert forall i :: 0 <= i < |init| ==> init[i] == s[i];
    }
  }

  function CorrelationOf(logs: seq<HabitLog>, byDate: seq<(int, int)>): Habit -> Option<Correlation>
  {
    (h: Habit) => HabitCorrelation(h, logs, byDate)
  }

  function FoundCorrelations(habits: seq<Habit>, logs: seq<HabitLog>, byDate: seq<(int, int)>): seq<Correlation>
  {
    Somes(habits, CorrelationOf(logs, byDate))
  }

  predicate TooLittleData(habits: seq<Habit>, screenLogs: seq<ScreenTimeLog>)
  {
    habits == [] || screenLogs == [] || |habits| < 2 || |screenLogs| < 3
  }

  function Correlations(habits: seq<Habit>, logs: seq<HabitLog>, screenLogs: seq<ScreenTimeLog>): seq<Correlation>
  {
    if TooLittleData(habits, screenLogs) then [MeditationSampleEntry]
    else
      var found := FoundCorrelations(habits, logs, TallyOf(DayEntries(screenLogs)));
      if found == [] then [NoCorrelationEntry] else found
  }

  /** The per-habit body of the loop: split the habit's logs by completion
      over the days with screen time, and compare the two means. */
  method HabitCorrelationOf(habit: Habit, logs: seq<HabitLog>, byDate: seq<(int, int)>) returns (r: Option<Correlation>)
    ensures r == HabitCorrelation(habit, logs, byDate)
  {
    var habitLogs := LogsOf(habit.id, logs);
    if |habitLogs| < 3 {
      return None;
    }
    var done: seq<int> := [];
    var missed: seq<int> := [];
    var j := 0;
    while j < |habitLogs|
      invariant 0 <= j <= |habitLogs|
      invariant done == DayMinutes(byDate, habitLogs[..j], true)
      invariant missed == DayMinutes(byDate, habitLogs[..j], false)
    {
      var log := habitLogs[j];
      assert habitLogs[..j + 1][..j] == habitLogs[..j];
      if log.date in Keys(byDate) {
        if log.completed {
          done := done + [Lookup(byDate, log.date)];
        } else {
          missed := missed + [Lookup(byDate, log.date)];
        }
      }
      j := j + 1;
    }
    assert habitLogs[..|habitLogs|] == habitLogs;
    if |done| < 2 || |missed| < 2 {
      return None;
    }
    var diff := PercentDiff(Mean(done), Mean(missed));
    if AbsReal(diff) > 10.0 {
      r := Some(Correlation(habit.name + " & Screen Time", HabitNote(diff > 0.0, Abs(Trunc(diff))),
                            Min(100, Abs(Trunc(diff * 1.5)))));
    } else {
      r := None;
    }
  }

  /** calculate_habit_screen_time_correlations: fill the per-date minutes,
      then collect the entry of every habit that has one. */
  method CalculateCorrelations(habits: seq<Habit>, logs: seq<HabitLog>, screenLogs: seq<ScreenTimeLog>)
    returns (correlations: seq<Correlation>)
    ensures correlations == Correlations(habits, logs, screenLogs)
  {
    if TooLittleData(habits, screenLogs) {
      return [MeditationSampleEntry];
    }
    var byDate := Build(DayEntries(screenLogs));
    correlations := [];
    var i := 0;
    while i < |habits|
      invariant 0 <= i <= |habits|
      invariant correlations == FoundCorrelations(habits[..i], logs, byDate)
    {
      var entry := HabitCorrelationOf(habits[i], logs, byDate);
      assert habits[..i + 1][..i] == habits[..i];
      if entry.Some? {
        correlations := correlations + [entry.value];
      }
      i := i + 1;
    }
    assert habits[..|habits|] == habits;
    if correlations == [] {
      correlations := [NoCorrelationEntry];
    }
  }

  /** A habit has an entry exactly when it has three logs, two completed
      and two missed days with screen time, a positive mean on the missed
      days and a difference of more than 10%; the entry says "less screen
      time" exactly when the completed days average less, and its strength
      lies in [15, 100]. */
  lemma HabitCorrelationMeaning(h: Habit, logs: seq<HabitLog>, byDate: seq<(int, int)>)
    ensures var habitLogs := LogsOf(h.id, logs);
            var done := DayMinutes(byDate, habitLogs, true);
            var missed := DayMinutes(byDate, habitLogs, false);
            HabitCorrelation(h, logs, byDate).Some? <==>
              |habitLogs| >= 3 && |done| >= 2 && |missed| >= 2 && Mean(missed) > 0.0 &&
              AbsReal(PercentDiff(Mean(done), Mean(missed))) > 10.0
    ensures var habitLogs := LogsOf(h.id, logs);
            var done := DayMinutes(byDate, habitLogs, true);
            var missed := DayMinutes(byDate, habitLogs, false);
            HabitCorrelation(h, logs, byDate).Some? ==>
              var c := HabitCorrelation(h, logs, byDate).value;
              c.note.HabitNote? &&
              (c.note.lessScreenTime <==> Mean(done) < Mean(missed)) &&
              c.note.percent >= 10 && 15 <= c.strength <= 100
  {
    var habitLogs := LogsOf(h.id, logs);
    var done := DayMinutes(byDate, habitLogs, true);
    var missed := DayMinutes(byDate, habitLogs, false);
    if |habitLogs| >= 3 && |done| >= 2 && |missed| >= 2 {
      var diff := PercentDiff(Mean(done), Mean(missed));
      if Mean(missed) > 0.0 {
        QuotientPositive(Mean(missed) - Mean(done), Mean(missed));
      }
      if AbsReal(diff) > 10.0 {
        TruncAbove(diff, 10);
        TruncAbove(diff * 1.5, 15);
      }
    }
  }

  /** An entry is found exactly for the habits that have one. */
  lemma FoundCorrelationsExact(habits: seq<Habit>, logs: seq<HabitLog>, byDate: seq<(int, int)>)
    ensures forall c :: c in FoundCorrelations(habits, logs, byDate) <==>
              exists i :: 0 <= i < |habits| && HabitCorrelation(habits[i], logs, byDate) == Some(c)
  {
    SomesExact(habits, CorrelationOf(logs, byDate));
  }

  /** The list is never empty; with too little data it is the single
      placeholder; every strength lies in [15, 100]. */
  lemma CorrelationsProperties(habits: seq<Habit>, logs: seq<HabitLog>, screenLogs: seq<ScreenTimeLog>)
    ensures var r := Correlations(habits, logs, screenLogs);
            r != [] &&
            (TooLittleData(habits, screenLogs) ==> r == [MeditationSampleEntry]) &&
            forall c :: c in r ==> 15 <= c.strength <= 100
  {
    if !TooLittleData(habits, screenLogs) {
      var byDate := TallyOf(DayEntries(screenLogs));
      FoundCorrelationsExact(habits, logs, byDate);
      forall c | c in FoundCorrelations(habits, logs, byDate) ensures 15 <= c.strength <= 100 {
        var i :| 0 <= i < |habits| && HabitCorrelation(habits[i], logs, byDate) == Some(c);
        HabitCorrelationMeaning(habits[i], logs, byDate);
      }
    }
  }

  // ---------------------------------------------------------------------
  // generate_personalized_recommendations

  datatype Recommendation =
    | ReduceScreenTime
    | LimitApp(app: string)
    | StartDetox
    | AddMeditation
    | AddOutdoorActivity
    | MaintainBalance

  /** The position of a recommendation's rule in the order the rules append;
      the general one comes last. */
  function RecommendationRank(r: Recommendation): int
  {
    match r
    case ReduceScreenTime => 0
    case LimitApp(_) => 1
    case StartDetox => 2
    case AddMeditation => 3
    case AddOutdoorActivity => 4
    case MaintainBalance => 5
  }


  const MeditationWords: seq<string> := ["meditate", "meditation", "mindful"]

  const OutdoorWords: seq<string> := ["outdoor", "outside", "nature", "walk"]

  /** `any(x in ' '.join(habit_names) for x in words)` */
  predicate JoinedNamesContain(habits: seq<Habit>, words: seq<string>)
  {
    ContainsAny(Join(LowerNames(habits), " "), words)
  }

  /** The top app by summed minutes when that sum is over 120:
      `top_apps and top_apps[0][1] > 120`. */
  function HeavyTopApp(screenLogs: seq<ScreenTimeLog>): Option<string>
  {
    var top := TopApps(screenLogs, 3);
    if top != [] && top[0].1 > 120 then Some(top[0].0) else None
  }

  /** There is a heavy top app exactly when some app's summed minutes exceed
      120, and it is then the most-used app. */
  lemma HeavyTopAppMeaning(screenLogs: seq<ScreenTimeLog>)
    ensures var e := AppEntries(screenLogs);
            HeavyTopApp(screenLogs).Some? <==> exists i :: 0 <= i < |screenLogs| && SumFor(e, screenLogs[i].appName) > 120
    ensures HeavyTopApp(screenLogs).Some? ==>
              HeavyTopApp(screenLogs).value == MostUsedApp(TallyOf(AppEntries(screenLogs)))
  {
    var e := AppEntries(screenLogs);
    var top := TopApps(screenLogs, 3);
    TopAppsProperties(screenLogs, 3);
    if exists i :: 0 <= i < |screenLogs| && SumFor(e, screenLogs[i].appName) > 120 {
      var i :| 0 <= i < |screenLogs| && SumFor(e, screenLogs[i].appName) > 120;
      var k := screenLogs[i].appName;
      assert e[i].0 == k;
      assert k in Keys(e);
      assert top != [];
      if k !in Keys(top) {
        assert SumFor(e, k) <= top[0].1;
      } else {
        var j :| 0 <= j < |top| && top[j].0 == k;
        assert MoreMinutes(top[0], top[j]) || j == 0;
      }
    }
    if top != [] && top[0].1 > 120 {
      var k := top[0].0;
      assert k in Keys(e);
      var i :| 0 <= i < |e| && e[i].0 == k;
      assert screenLogs[i].appName == k;
    }
  }

  /** Each recommendation is made exactly when its rule fires, once, in the
      order of the rules, and the general one exactly when no other does, so
      the list is never empty. */
  method PersonalizedRecommendations(habits: seq<Habit>, screenLogs: seq<ScreenTimeLog>,
                                     activePlans: seq<DetoxPlan>, limits: seq<AppLimit>)
    returns (recs: seq<Recommendation>)
    ensures ReduceScreenTime in recs <==> WeekAverage(screenLogs) > 240.0
    ensures forall a :: LimitApp(a) in recs <==> HeavyTopApp(screenLogs) == Some(a)
    ensures StartDetox in recs <==> activePlans == [] && WeekAverage(screenLogs) > 180.0
    ensures AddMeditation in recs <==> WeekAverage(screenLogs) > 180.0 && !JoinedNamesContain(habits, MeditationWords)
    ensures AddOutdoorActivity in recs <==> WeekAverage(screenLogs) > 240.0 && !JoinedNamesContain(habits, OutdoorWords)
    ensures MaintainBalance in recs <==>
              !(WeekAverage(screenLogs) > 240.0 || HeavyTopApp(screenLogs).Some? ||
                (activePlans == [] && WeekAverage(screenLogs) > 180.0) ||
                (WeekAverage(screenLogs) > 180.0 && !JoinedNamesContain(habits, MeditationWords)))
    ensures forall i, j :: 0 <= i < j < |recs| ==> RecommendationRank(recs[i]) < RecommendationRank(recs[j])
    ensures recs != []
  {
    var dailyAverage := WeekAverage(screenLogs);
    var topApp := TopAppOver120(screenLogs);
    var meditates := JoinedNamesContain(habits, MeditationWords);
    var outdoors := JoinedNamesContain(habits, OutdoorWords);
    recs := RuleRecommendations(dailyAverage, topApp, activePlans == [], meditates, outdoors);
    if recs == [] {
      recs := [MaintainBalance];
    }
  }

  /** The five rules of generate_personalized_recommendations, in the order
      they append, before the general fallback. The app-limit rule fires only
      with a top app, so its item's name matters only then. */
  function RecommendationRules(dailyAverage: real, topApp: Option<string>, noPlan: bool, meditates: bool, outdoors: bool)
    : seq<(Recommendation, bool)>
  {
    [(ReduceScreenTime, dailyAverage > 240.0),
     (LimitApp(if topApp.Some? then topApp.value else ""), topApp.Some?),
     (StartDetox, noPlan && dailyAverage > 180.0),
     (AddMeditation, dailyAverage > 180.0 && !meditates),
     (AddOutdoorActivity, dailyAverage > 240.0 && !outdoors)]
  }

  /** Each recommendation is given exactly when its rule fires, once, in
      the order of the rules; the general one is never among them. */
  lemma RecommendationRulesMeaning(dailyAverage: real, topApp: Option<string>, noPlan: bool, meditates: bool, outdoors: bool)
    ensures var r := Fired(RecommendationRules(dailyAverage, topApp, noPlan, meditates, outdoors));
            (ReduceScreenTime in r <==> dailyAverage > 240.0) &&
            (forall a :: LimitApp(a) in r <==> topApp == Some(a)) &&
            (StartDetox in r <==> noPlan && dailyAverage > 180.0) &&
            (AddMeditation in r <==> dailyAverage > 180.0 && !meditates) &&
            (AddOutdoorActivity in r <==> dailyAverage > 240.0 && !outdoors) &&
            MaintainBalance !in r &&
            (forall i, j :: 0 <= i < j < |r| ==> RecommendationRank(r[i]) < RecommendationRank(r[j]))
  {
    var rules := RecommendationRules(dailyAverage, topApp, noPlan, meditates, outdoors);
    forall i | 0 <= i < |rules|
      ensures RecommendationRank(rules[i].0) == i
    {
      if i == 0 {} else if i == 1 {} else if i == 2 {} else if i == 3 {}
    }
    FiredItem(rules, RecommendationRank, 0);
    FiredItem(rules, RecommendationRank, 1);
    FiredItem(rules, RecommendationRank, 2);
    FiredItem(rules, RecommendationRank, 3);
    FiredItem(rules, RecommendationRank, 4);
    forall a
      ensures LimitApp(a) in Fired(rules) <==> topApp == Some(a)
    {
      FiredMembers(rules, LimitApp(a));
    }
    FiredMembers(rules, MaintainBalance);
    FiredKeepsOrder(rules, RecommendationRank);
  }

  /** The appends of the five rules give the recommendations of the rules
      that fire, in rule order: each exactly when its rule fires, once. */
  method RuleRecommendations(dailyAverage: real, topApp: Option<string>, noPlan: bool, meditates: bool, outdoors: bool)
    returns (recs: seq<Recommendation>)
    ensures recs == Fired(RecommendationRules(dailyAverage, topApp, noPlan, meditates, outdoors))
    ensures ReduceScreenTime in recs <==> dailyAverage > 240.0
    ensures forall a :: LimitApp(a) in recs <==> topApp == Some(a)
    ensures StartDetox in recs <==> noPlan && dailyAverage > 180.0
    ensures AddMeditation in recs <==> dailyAverage > 180.0 && !meditates
    ensures AddOutdoorActivity in recs <==> dailyAverage > 240.0 && !outdoors
    ensures MaintainBalance !in recs
    ensures forall i, j :: 0 <= i < j < |recs| ==> RecommendationRank(recs[i]) < RecommendationRank(recs[j])
    ensures recs == [] <==> !(dailyAverage > 180.0 && (noPlan || !meditates)) && dailyAverage <= 240.0 && topApp.None?
  {
    ghost var rules := RecommendationRules(dailyAverage, topApp, noPlan, meditates, outdoors);
    recs := [];
    if dailyAverage > 240.0 {
      recs := recs + [ReduceScreenTime];
    }
    assert rules[..1][..0] == rules[..0];
    assert recs == Fired(rules[..1]);
    if topApp.Some? {
      recs := recs + [LimitApp(topApp.value)];
    }
    assert rules[..2][..1] == rules[..1];
    assert recs == Fired(rules[..2]);
    if noPlan && dailyAverage > 180.0 {
      recs := recs + [StartDetox];
    }
    assert rules[..3][..2] == rules[..2];
    assert recs == Fired(rules[..3]);
    if dailyAverage > 180.0 && !meditates {
      recs := recs + [AddMeditation];
    }
    assert rules[..4][..3] == rules[..3];
    assert recs == Fired(rules[..4]);
    if dailyAverage > 240.0 && !outdoors {
      recs := recs + [AddOutdoorActivity];
    }
    assert rules[..5][..4] == rules[..4];
    assert rules[..5] == rules;
    RecommendationRulesMeaning(dailyAverage, topApp, noPlan, meditates, outdoors);
  }

  /** The per-app tally, its top three, and the first of them when it is
      over 120 minutes. */
  method TopAppOver120(screenLogs: seq<ScreenTimeLog>) returns (r: Option<string>)
    ensures r == HeavyTopApp(screenLogs)
  {
    var appUsage := Build(AppEntries(screenLogs));
    var topApps := Take(SortBy(appUsage, MoreMinutes), 3);
    r := if topApps != [] && topApps[0].1 > 120 then Some(topApps[0].0) else None;
  }

  // ---------------------------------------------------------------------
  // generate_weekly_report

  /** `completed_habits / max(1, total_habit_logs)` */
  function Share(completed: nat, total: nat): real
  {
    completed as real / Max(1, total) as real
  }

  /** Up to 50 points for habit consistency, 0 without habits. */
  function HabitScore(habits: seq<Habit>, logs: seq<HabitLog>): real
  {
    if habits == [] then 0.0 else Share(CompletedHabitLogs(habits, logs), HabitLogTotal(habits, logs)) * 50.0
  }

  /** Up to 50 points for low screen time: one point less per 12 minutes of
      daily average, floored at 0. */
  function ScreenScore(average: real): real
  {
    MaxReal(0.0, 50.0 - average / 12.0)
  }

  /** `int((completed / max(1, total)) * 100) if habits else 0` */
  function ReportRate(habits: seq<Habit>, logs: seq<HabitLog>): int
  {
    if habits == [] then 0 else Trunc(Share(CompletedHabitLogs(habits, logs), HabitLogTotal(habits, logs)) * 100.0)
  }

  /** The change of the daily average against the previous week's, as an
      int() percentage; 0 unless the previous average is positive. */
  function ScreenChange(average: real, previousAverage: real): int
  {
    if previousAverage > 0.0 then Trunc((average - previousAverage) / previousAverage * 100.0) else 0
  }

  /** The previous week: dated from 14 days back up to, not including, 7
      days back. */
  function PreviousWeek(allScreenLogs: seq<ScreenTimeLog>, userId: int, today: int): seq<ScreenTimeLog>
  {
    InWindow(allScreenLogs, userId, today - 14, today - 8)
  }

  datatype Consistency = ExcellentConsistency | GoodConsistency | ModerateConsistency | PoorConsistency

  /** The habit summary band: strictly above 80, 60 and 40. */
  function ConsistencyOf(rate: int): Consistency
  {
    if rate > 80 then ExcellentConsistency
    else if rate > 60 then GoodConsistency
    else if rate > 40 then ModerateConsistency
    else PoorConsistency
  }

  datatype ScreenLevel = HighScreenTime | ModerateHighScreenTime | ModerateScreenTime | LowScreenTime

  /** The screen-time summary band: strictly above 240, 180 and 120 minutes. */
  function ScreenLevelOf(average: real): ScreenLevel
  {
    if average > 240.0 then HighScreenTime
    else if average > 180.0 then ModerateHighScreenTime
    else if average > 120.0 then ModerateScreenTime
    else LowScreenTime
  }

  datatype ReportTip = ImproveConsistency | CutScreenTime | ScreenTimeRising | MaintainProgress

  /** The report's recommendations in the order they are appended, with the
      general one when no rule fires. */
  function ReportTips(rate: int, average: real, change: int): seq<ReportTip>
  {
    var tips := (if rate < 60 then [ImproveConsistency] else []) +
                (if average > 180.0 then [CutScreenTime] else []) +
                (if change > 20 then [ScreenTimeRising] else []);
    if tips == [] then [MaintainProgress] else tips
  }

  /** Each tip is given exactly when its rule fires, the general one exactly
      when none does, and so the list is never empty. */
  lemma ReportTipsMeaning(rate: int, average: real, change: int)
    ensures ImproveConsistency in ReportTips(rate, average, change) <==> rate < 60
    ensures CutScreenTime in ReportTips(rate, average, change) <==> average > 180.0
    ensures ScreenTimeRising in ReportTips(rate, average, change) <==> change > 20
    ensures MaintainProgress in ReportTips(rate, average, change) <==> rate >= 60 && average <= 180.0 && change <= 20
    ensures 1 <= |ReportTips(rate, average, change)| <= 3
  {
  }

  datatype WeeklyReport = WeeklyReport(
    overallScore: int,
    habitSummary: Consistency,
    habitCompletionRate: int,
    activeHabits: nat,
    longestStreak: int,
    screenTimeSummary: ScreenLevel,
    avgScreenTime: int,
    screenTimeChange: int,
    mostUsedApp: string,
    tips: seq<ReportTip>)

  /** The report for this week's screen logs, the user's habits and their
      logs; the previous week is read from all of the user's screen logs. */
  function WeeklyReportOf(habits: seq<Habit>, logs: seq<HabitLog>, screenLogs: seq<ScreenTimeLog>,
                          allScreenLogs: seq<ScreenTimeLog>, userId: int, today: int): WeeklyReport
  {
    var average := WeekAverage(screenLogs);
    var rate := ReportRate(habits, logs);
    var change := ScreenChange(average, WeekAverage(PreviousWeek(allScreenLogs, userId, today)));
    WeeklyReport(
      Trunc(HabitScore(habits, logs) + ScreenScore(average)),
      ConsistencyOf(rate),
      rate,
      |habits|,
      MaxStreak(habits, logs),
      ScreenLevelOf(average),
      Trunc(average),
      change,
      MostUsedApp(TallyOf(AppEntries(screenLogs))),
      ReportTips(rate, average, change))
  }

  /** generate_weekly_report: the per-app tally is built by the loop over
      this week's logs and the recommendations by appending. */
  method GenerateWeeklyReport(habits: seq<Habit>, logs: seq<HabitLog>, screenLogs: seq<ScreenTimeLog>,
                              allScreenLogs: seq<ScreenTimeLog>, userId: int, today: int)
    returns (r: WeeklyReport)
    ensures r == WeeklyReportOf(habits, logs, screenLogs, allScreenLogs, userId, today)
  {
    var habitScore := HabitScore(habits, logs);
    var dailyAverage := WeekAverage(screenLogs);
    var screenTimeScore := ScreenScore(dailyAverage);
    var overallScore := Trunc(habitScore + screenTimeScore);
    var rate := ReportRate(habits, logs);
    var previousLogs := PreviousWeek(allScreenLogs, userId, today);
    var change := ScreenChange(dailyAverage, WeekAverage(previousLogs));
    var appUsage := Build(AppEntries(screenLogs));
    var tips := AppendReportTips(rate, dailyAverage, change);
    r := WeeklyReport(overallScore, ConsistencyOf(rate), rate, |habits|, MaxStreak(habits, logs),
                      ScreenLevelOf(dailyAverage), Trunc(dailyAverage), change, MostUsedApp(appUsage), tips);
  }

  method AppendReportTips(rate: int, dailyAverage: real, change: int) returns (tips: seq<ReportTip>)
    ensures tips == ReportTips(rate, dailyAverage, change)
  {
    tips := [];
    if rate < 60 {
      tips := tips + [ImproveConsistency];
    }
    if dailyAverage > 180.0 {
      tips := tips + [CutScreenTime];
    }
    if change > 20 {
      tips := tips + [ScreenTimeRising];
    }
    if tips == [] {
      tips := [MaintainProgress];
    }
  }

  /** The share of completed logs lies in [0, 1] and is 1 exactly when the
      habits have logs and all of them are completed. */
  lemma ShareBounds(habits: seq<Habit>, logs: seq<HabitLog>)
    ensures var share := Share(CompletedHabitLogs(habits, logs), HabitLogTotal(habits, logs));
            0.0 <= share <= 1.0 &&
            (share == 1.0 <==>
               HabitLogTotal(habits, logs) > 0 && HabitsAllCompleted(habits, logs))
  {
    var c := CompletedHabitLogs(habits, logs);
    var t := HabitLogTotal(habits, logs);
    CompletedWithinTotal(habits, logs);
    ShareOfPart(c, t);
  }

  lemma ShareOfPart(c: nat, t: nat)
    requires c <= t
    ensures 0.0 <= Share(c, t) <= 1.0
    ensures Share(c, t) == 1.0 <==> t > 0 && c == t
  {
    if t > 0 {
      QuotientBelow(c as real, t as real, 1.0);
    }
  }

  /** The completion rate lies in [0, 100], is 0 without habits, and is 100
      exactly when the habits have logs and all of them are completed. */
  lemma ReportRateBounds(habits: seq<Habit>, logs: seq<HabitLog>)
    ensures 0 <= ReportRate(habits, logs) <= 100
    ensures habits == [] ==> ReportRate(habits, logs) == 0
    ensures ReportRate(habits, logs) == 100 <==>
              habits != [] && HabitLogTotal(habits, logs) > 0 &&
              forall i, j :: 0 <= i < |habits| && 0 <= j < |logs| && logs[j].habitId == habits[i].id ==> logs[j].completed
  {
    ShareBounds(habits, logs);
    if habits != [] {
      var pct := Share(CompletedHabitLogs(habits, logs), HabitLogTotal(habits, logs)) * 100.0;
      TruncMonotone(0.0, pct);
      TruncMonotone(pct, 100.0);
    }
  }

  /** With a non-negative daily average the overall score lies in [0, 100];
      without habits it is at most 50, and with no screen time at least 50. */
  lemma OverallScoreBounds(habits: seq<Habit>, logs: seq<HabitLog>, average: real)
    requires average >= 0.0
    ensures 0 <= Trunc(HabitScore(habits, logs) + ScreenScore(average)) <= 100
    ensures habits == [] ==> Trunc(HabitScore(habits, logs) + ScreenScore(average)) <= 50
    ensures average == 0.0 ==> Trunc(HabitScore(habits, logs) + ScreenScore(average)) >= 50
  {
    ShareBounds(habits, logs);
    var total := HabitScore(habits, logs) + ScreenScore(average);
    assert 0.0 <= total <= 100.0;
    TruncMonotone(0.0, total);
    TruncMonotone(total, 100.0);
    if habits == [] {
      TruncMonotone(total, 50.0);
    }
    if average == 0.0 {
      TruncMonotone(50.0, total);
    }
  }

  /** The overall score and the completion rate lie in [0, 100]; the rate
      is 0 without habits and 100 exactly when the habits have logs and all
      are completed; without habits the score is at most 50 and without
      screen time at least 50; the change is 0 when the previous week has no
      positive total; and the report always carries a recommendation. */
  lemma WeeklyReportProperties(habits: seq<Habit>, logs: seq<HabitLog>, screenLogs: seq<ScreenTimeLog>,
                               allScreenLogs: seq<ScreenTimeLog>, userId: int, today: int)
    requires forall i :: 0 <= i < |screenLogs| ==> screenLogs[i].minutes >= 0
    ensures var r := WeeklyReportOf(habits, logs, screenLogs, allScreenLogs, userId, today);
            0 <= r.overallScore <= 100 && 0 <= r.habitCompletionRate <= 100 && r.avgScreenTime >= 0
    ensures var r := WeeklyReportOf(habits, logs, screenLogs, allScreenLogs, userId, today);
            r.habitCompletionRate == 100 <==>
              habits != [] && HabitLogTotal(habits, logs) > 0 &&
              forall i, j :: 0 <= i < |habits| && 0 <= j < |logs| && logs[j].habitId == habits[i].id ==> logs[j].completed
    ensures var r := WeeklyReportOf(habits, logs, screenLogs, allScreenLogs, userId, today);
            habits == [] ==> r.habitCompletionRate == 0 && r.overallScore <= 50
    ensures screenLogs == [] ==> WeeklyReportOf(habits, logs, screenLogs, allScreenLogs, userId, today).overallScore >= 50
    ensures TotalMinutes(PreviousWeek(allScreenLogs, userId, today)) <= 0 ==>
              WeeklyReportOf(habits, logs, screenLogs, allScreenLogs, userId, today).screenTimeChange == 0
    ensures WeeklyReportOf(habits, logs, screenLogs, allScreenLogs, userId, today).tips != []
  {
    SumByNonNegative(screenLogs, (l: ScreenTimeLog) => l.minutes);
    var average := WeekAverage(screenLogs);
    OverallScoreBounds(habits, logs, average);
    ReportRateBounds(habits, logs);
    var previous := PreviousWeek(allScreenLogs, userId, today);
    ReportTipsMeaning(ReportRate(habits, logs), average, ScreenChange(average, WeekAverage(previous)));
  }
}
