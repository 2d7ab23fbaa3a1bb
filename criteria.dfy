/** Achievement criteria: the "kind:threshold" strings, the seven earn
    conditions check_achievements evaluates, the 0-100 progress shown for a
    locked achievement, and the requirement text (app/gamification/routes.py). */
module Criteria {
  import opened Text
  import opened Lists
  import opened Tally
  import opened Numerics
  import opened Models
  import opened HabitStreaks

  datatype Kind =
    | StreakKind | HabitsKind | CompletionKind | ConsistencyKind
    | DetoxKind | ScreenTimeKind | PerfectWeekKind
    | OtherKind(name: string)

  /** A parsed criteria string: the kind and its integer threshold. */
  datatype Criterion = Criterion(kind: Kind, threshold: int)

  function KindOf(name: string): (k: Kind)
    ensures k.OtherKind? ==> k.name == name
  {
    if name == "streak" then StreakKind
    else if name == "habits" then HabitsKind
    else if name == "completion" then CompletionKind
    else if name == "consistency" then ConsistencyKind
    else if name == "detox" then DetoxKind
    else if name == "screentime" then ScreenTimeKind
    else if name == "perfect_week" then PerfectWeekKind
    else OtherKind(name)
  }

  function KindName(k: Kind): string
  {
    match k
    case StreakKind => "streak"
    case HabitsKind => "habits"
    case CompletionKind => "completion"
    case ConsistencyKind => "consistency"
    case DetoxKind => "detox"
    case ScreenTimeKind => "screentime"
    case PerfectWeekKind => "perfect_week"
    case OtherKind(name) => name
  }

  /** `criteria.split(':')`, the kind before the first ':', and
      `int(parts[1]) if len(parts) > 1 else 0`; Err where int() raises. */
  function ParseCriteria(s: string): Result<Criterion>
  {
    var parts := Split(s, ':');
    var kind := KindOf(parts[0]);
    if |parts| > 1 then
      match ParseInt(parts[1])
      case Some(t) => Ok(Criterion(kind, t))
      case None => Err("invalid literal for int()")
    else Ok(Criterion(kind, 0))
  }

  function FormatCriteria(c: Criterion): string
  {
    KindName(c.kind) + ":" + IntToString(c.threshold)
  }

  /** A criterion that can be written down and read back: its kind's name holds
      no ':' and a free-form name is not one of the seven keywords. */
  predicate WellFormed(c: Criterion)
  {
    ':' !in KindName(c.kind) && KindOf(KindName(c.kind)) == c.kind
  }

  /** Writing a criterion as "kind:threshold" and parsing it gives it back. */
  lemma ParseFormatRoundTrip(c: Criterion)
    requires WellFormed(c)
    ensures ParseCriteria(FormatCriteria(c)) == Ok(c)
  {
    ColonNotInIntToString(c.threshold);
    SplitPair(KindName(c.kind), IntToString(c.threshold), ':');
    assert FormatCriteria(c) == KindName(c.kind) + [':'] + IntToString(c.threshold);
    ParseIntToString(c.threshold);
  }

  /** The kind is the text before the first ':'; the threshold is the int()
      of the text up to the next ':', and the parse fails exactly when that
      int() raises. */
  lemma ParseKindBeforeColon(a: string, b: string)
    requires ':' !in a
    ensures var r := ParseCriteria(a + [':'] + b);
            var field := Split(b, ':')[0];
            (r.Ok? <==> ParseInt(field).Some?) &&
            (r.Ok? ==> r.value == Criterion(KindOf(a), ParseInt(field).value))
  {
    SplitPrefix(a, b, ':');
  }

  /** Without a ':' the whole string is the kind and the threshold is 0. */
  lemma ParseWithoutColon(s: string)
    requires ':' !in s
    ensures ParseCriteria(s) == Ok(Criterion(KindOf(s), 0))
  {
    SplitNoSep(s, ':');
  }

  // ---------------------------------------------------------------------
  // The user data the conditions read

  /** The current user's rows as the queries return them, and today's date. */
  datatype Activity = Activity(
    habits: seq<Habit>,
    logs: seq<HabitLog>,
    screenLogs: seq<ScreenTimeLog>,
    finishedDetoxPlans: nat,
    today: int)

  /** Screen-time logs with `date >= today - 7`. */
  function RecentScreenLogs(a: Activity): seq<ScreenTimeLog>
  {
    Filter(a.screenLogs, (l: ScreenTimeLog) => l.date >= a.today - 7)
  }

  /** Habit logs with `date >= today - 7`. */
  function RecentHabitLogs(a: Activity): seq<HabitLog>
  {
    Filter(a.logs, (l: HabitLog) => l.date >= a.today - 7)
  }

  // ---------------------------------------------------------------------
  // sorted(set(dates)) and the longest run of consecutive days

  predicate StrictlyIncreasing(d: seq<int>)
  {
    forall i, j :: 0 <= i < j < |d| ==> d[i] < d[j]
  }

  /** `x` added to a sorted list of distinct days, keeping it so. */
  function InsertDistinct(x: int, d: seq<int>): seq<int>
  {
    if d == [] then [x]
    else if x < d[0] then [x] + d
    else if x == d[0] then d
    else [d[0]] + InsertDistinct(x, d[1..])
  }

  lemma {:induction false} InsertDistinctProperties(x: int, d: seq<int>)
    requires StrictlyIncreasing(d)
    ensures StrictlyIncreasing(InsertDistinct(x, d))
    ensures forall y :: y in InsertDistinct(x, d) <==> y in d || y == x
  {
    if d != [] && x > d[0] {
      InsertDistinctProperties(x, d[1..]);
      var rest := InsertDistinct(x, d[1..]);
      assert forall y :: y in rest ==> d[0] < y;
      assert InsertDistinct(x, d) == [d[0]] + rest;
    }
  }

  /** `sorted(set(dates))` */
  function SortedDistinct(ds: seq<int>): seq<int>
  {
    if ds == [] then []
    else InsertDistinct(ds[0], SortedDistinct(ds[1..]))
  }

  /** sorted(set(ds)) is strictly increasing and holds exactly the days of
      ds; it is empty only when ds is. */
  lemma {:induction false} SortedDistinctProperties(ds: seq<int>)
    ensures StrictlyIncreasing(SortedDistinct(ds))
    ensures forall y :: y in SortedDistinct(ds) <==> y in ds
    ensures ds != [] ==> SortedDistinct(ds) != []
  {
    if ds != [] {
      SortedDistinctProperties(ds[1..]);
      InsertDistinctProperties(ds[0], SortedDistinct(ds[1..]));
      assert ds == [ds[0]] + ds[1..];
      assert ds[0] in SortedDistinct(ds);
    }
  }

  /** The number of consecutive days ending at index i. */
  function RunEndingAt(d: seq<int>, i: int): (n: nat)
    requires 0 <= i < |d|
    ensures 1 <= n <= i + 1
  {
    if i == 0 || d[i] - d[i - 1] != 1 then 1 else RunEndingAt(d, i - 1) + 1
  }

  /** The longest such run ending before index k. */
  function LongestUpTo(d: seq<int>, k: int): (n: nat)
    requires 1 <= k <= |d|
    ensures 1 <= n <= k
  {
    if k == 1 then 1 else Max(LongestUpTo(d, k - 1), RunEndingAt(d, k - 1))
  }

  function LongestRun(d: seq<int>): nat
  {
    if d == [] then 0 else LongestUpTo(d, |d|)
  }

  /** The loop of the consistency check: `consecutive_days` and
      `max_consecutive` over the sorted distinct dates. */
  method LongestRunOf(d: seq<int>) returns (maxConsecutive: int)
    requires d != []
    ensures maxConsecutive == LongestRun(d)
  {
    var consecutive := 1;
    maxConsecutive := 1;
    var i := 1;
    while i < |d|
      invariant 1 <= i <= |d|
      invariant consecutive == RunEndingAt(d, i - 1)
      invariant maxConsecutive == LongestUpTo(d, i)
    {
      if d[i] - d[i - 1] == 1 {
        consecutive := consecutive + 1;
        maxConsecutive := Max(maxConsecutive, consecutive);
      } else {
        consecutive := 1;
      }
      i := i + 1;
    }
  }

  /** Indices s .. s + n - 1 of d hold consecutive days. */
  predicate DayWindow(d: seq<int>, s: int, n: int)
  {
    0 <= s && 1 <= n && s + n <= |d| && forall j :: s < j < s + n ==> d[j] - d[j - 1] == 1
  }

  lemma {:induction false} RunEndingAtWindow(d: seq<int>, i: int)
    requires 0 <= i < |d|
    ensures DayWindow(d, i - RunEndingAt(d, i) + 1, RunEndingAt(d, i))
  {
    if i > 0 && d[i] - d[i - 1] == 1 {
      RunEndingAtWindow(d, i - 1);
    }
  }

  lemma {:induction false} WindowRunEndingAt(d: seq<int>, s: int, n: int)
    requires DayWindow(d, s, n)
    ensures RunEndingAt(d, s + n - 1) >= n
  {
    if n > 1 {
      assert DayWindow(d, s, n - 1);
      WindowRunEndingAt(d, s, n - 1);
    }
  }

  lemma {:induction false} LongestUpToBounds(d: seq<int>, k: int)
    requires 1 <= k <= |d|
    ensures forall i :: 0 <= i < k ==> RunEndingAt(d, i) <= LongestUpTo(d, k)
    ensures exists i :: 0 <= i < k && RunEndingAt(d, i) == LongestUpTo(d, k)
  {
    if k == 1 {
      assert RunEndingAt(d, 0) == 1;
    } else {
      LongestUpToBounds(d, k - 1);
      if RunEndingAt(d, k - 1) > LongestUpTo(d, k - 1) {
        assert RunEndingAt(d, k - 1) == LongestUpTo(d, k);
      } else {
        var i :| 0 <= i < k - 1 && RunEndingAt(d, i) == LongestUpTo(d, k - 1);
        assert RunEndingAt(d, i) == LongestUpTo(d, k);
      }
    }
  }

  /** The longest run is attained by some window of consecutive days, and no
      window of consecutive days is longer. */
  lemma LongestRunIsLongest(d: seq<int>)
    ensures d != [] ==> 1 <= LongestRun(d) <= |d|
    ensures d != [] ==> exists s :: DayWindow(d, s, LongestRun(d))
    ensures forall s, n :: DayWindow(d, s, n) ==> n <= LongestRun(d)
  {
    if d != [] {
      LongestUpToBounds(d, |d|);
      var i :| 0 <= i < |d| && RunEndingAt(d, i) == LongestUpTo(d, |d|);
      RunEndingAtWindow(d, i);
      forall s, n | DayWindow(d, s, n) ensures n <= LongestRun(d) {
        WindowRunEndingAt(d, s, n);
      }
    }
  }

  /** In a strictly increasing sequence the day after d[i], if present, is
      the next element. */
  lemma NextDayIsNext(d: seq<int>, i: int)
    requires StrictlyIncreasing(d) && 0 <= i < |d| && d[i] + 1 in d
    ensures i + 1 < |d| && d[i + 1] == d[i] + 1
  {
    var j :| 0 <= j < |d| && d[j] == d[i] + 1;
    assert i < j;
    assert d[i] < d[i + 1];
    assert d[i + 1] <= d[j];
  }

  /** Indices s .. s + n - 1 of d hold the days d[s], d[s] + 1, ... */
  lemma {:induction false} CountUp(d: seq<int>, s: int, n: int)
    requires DayWindow(d, s, n)
    ensures forall j :: s <= j < s + n ==> d[j] == d[s] + (j - s)
  {
    if n > 1 {
      assert DayWindow(d, s, n - 1);
      CountUp(d, s, n - 1);
      assert d[s + n - 1] - d[s + n - 2] == 1;
    }
  }

  /** Every day x .. x + n - 1 is in the list. */
  predicate AllLogged(ds: seq<int>, x: int, n: int)
  {
    forall y :: x <= y < x + n ==> y in ds
  }

  /** For the sorted distinct log dates: days x, x+1, ..., x+n-1 all logged
      means a window of n consecutive entries. */
  lemma {:induction false} DaysGiveWindow(d: seq<int>, x: int, n: int)
    requires StrictlyIncreasing(d) && n >= 1 && AllLogged(d, x, n)
    ensures exists s :: DayWindow(d, s, n) && d[s] == x
  {
    assert x in d;
    if n == 1 {
      var s :| 0 <= s < |d| && d[s] == x;
      assert DayWindow(d, s, 1);
    } else {
      assert AllLogged(d, x, n - 1);
      DaysGiveWindow(d, x, n - 1);
      var s :| DayWindow(d, s, n - 1) && d[s] == x;
      CountUp(d, s, n - 1);
      assert d[s + n - 2] + 1 == x + n - 1;
      assert x + n - 1 in d;
      NextDayIsNext(d, s + n - 2);
      assert DayWindow(d, s, n);
    }
  }

  /** The longest run of consecutive log dates, stated on the dates
      themselves: some L = LongestRun days in a row were all logged, and any
      n days in a row that were all logged number at most L. */
  lemma LongestRunOfDates(ds: seq<int>)
    ensures ds != [] ==> LongestRun(SortedDistinct(ds)) >= 1
    ensures ds != [] ==> exists x :: AllLogged(ds, x, LongestRun(SortedDistinct(ds)))
    ensures forall x, n :: n >= 1 && AllLogged(ds, x, n) ==> n <= LongestRun(SortedDistinct(ds))
  {
    var d := SortedDistinct(ds);
    SortedDistinctProperties(ds);
    LongestRunIsLongest(d);
    if ds != [] {
      var s :| DayWindow(d, s, LongestRun(d));
      CountUp(d, s, LongestRun(d));
      forall y | d[s] <= y < d[s] + LongestRun(d) ensures y in ds {
        assert d[s + (y - d[s])] in d;
      }
      assert AllLogged(ds, d[s], LongestRun(d));
    }
    forall x, n | n >= 1 && AllLogged(ds, x, n)
      ensures n <= LongestRun(d)
    {
      assert AllLogged(d, x, n);
      DaysGiveWindow(d, x, n);
    }
  }

  function LogDateList(logs: seq<HabitLog>): seq<int>
  {
    Map(logs, (l: HabitLog) => l.date)
  }

  // ---------------------------------------------------------------------
  // Screen time per day since today - 7

  /** `sum(daily_screen_time.values()) / len(daily_screen_time)` */
  function DailyMean(logs: seq<ScreenTimeLog>): real
  {
    var perDay := TallyOf(DayEntries(logs));
    if |perDay| == 0 then 0.0 else Total(perDay) as real / |perDay| as real
  }

  /** The per-day mean is the total minutes over the number of distinct days. */
  lemma DailyMeanIsMinutesPerDay(logs: seq<ScreenTimeLog>)
    requires logs != []
    ensures |LogDates(logs)| >= 1
    ensures DailyMean(logs) == TotalMinutes(logs) as real / |LogDates(logs)| as real
  {
    var e := DayEntries(logs);
    TallyTotal(e);
    TallySize(e);
    TotalPointwise(e, logs, (l: ScreenTimeLog) => l.minutes);
    KeysPointwise(e, logs, (l: ScreenTimeLog) => l.date);
    SetOfNonEmpty(logs, (l: ScreenTimeLog) => l.date);
  }

  // ---------------------------------------------------------------------
  // Perfect days since today - 7

  function DateEntries(logs: seq<HabitLog>): seq<(int, HabitLog)>
  {
    Map(logs, (l: HabitLog) => (l.date, l))
  }

  /** `len(date_logs) == habit_count and all(log.completed for log in date_logs)` */
  predicate IsPerfect(g: (int, seq<HabitLog>), habitCount: int)
  {
    |g.1| == habitCount && forall i :: 0 <= i < |g.1| ==> g.1[i].completed
  }

  function PerfectDays(groups: seq<(int, seq<HabitLog>)>, habitCount: int): nat
  {
    Count(groups, (g: (int, seq<HabitLog>)) => IsPerfect(g, habitCount))
  }

  /** The loop over `logs_by_date.items()` counting perfect days. */
  method CountPerfectDays(groups: seq<(int, seq<HabitLog>)>, habitCount: int) returns (n: int)
    ensures n == PerfectDays(groups, habitCount)
  {
    n := 0;
    var i := |groups|;
    while i > 0
      invariant 0 <= i <= |groups|
      invariant n == PerfectDays(groups[i..], habitCount)
    {
      i := i - 1;
      assert groups[i..][1..] == groups[i + 1..];
      if IsPerfect(groups[i], habitCount) {
        n := n + 1;
      }
    }
  }

  /** The logs dated d number habit_count and are all completed. */
  predicate PerfectDate(recent: seq<HabitLog>, d: int, habitCount: int)
  {
    Count(recent, (l: HabitLog) => l.date == d) == habitCount &&
    forall j :: 0 <= j < |recent| && recent[j].date == d ==> recent[j].completed
  }

  lemma PerfectGroup(recent: seq<HabitLog>, i: int, habitCount: int)
    requires 0 <= i < |GroupOf(DateEntries(recent))|
    ensures var g := GroupOf(DateEntries(recent));
            IsPerfect(g[i], habitCount) <==> PerfectDate(recent, g[i].0, habitCount)
  {
    var e := DateEntries(recent);
    var g := GroupOf(e);
    var d := g[i].0;
    GroupOfProperties(e);
    DistinctGroup(g, i);
    assert g[i].1 == ValuesFor(e, d);
    DateCount(recent, d);
    DateAllCompleted(recent, d);
  }

  lemma DateCount(recent: seq<HabitLog>, d: int)
    ensures |ValuesFor(DateEntries(recent), d)| == Count(recent, (l: HabitLog) => l.date == d)
  {
    var e := DateEntries(recent);
    var atDate := (p: (int, HabitLog)) => p.0 == d;
    ValuesForCount(e, d, atDate);
    CountPointwise(e, recent, atDate, (l: HabitLog) => l.date == d);
  }

  lemma DateAllCompleted(recent: seq<HabitLog>, d: int)
    ensures var vs := ValuesFor(DateEntries(recent), d);
            (forall i :: 0 <= i < |vs| ==> vs[i].completed) <==>
            (forall j :: 0 <= j < |recent| && recent[j].date == d ==> recent[j].completed)
  {
    var e := DateEntries(recent);
    ValuesForAll(e, d, (l: HabitLog) => l.completed);
    assert forall j :: 0 <= j < |e| ==> e[j] == (recent[j].date, recent[j]);
  }

  /** logs_by_date has one group per logged day, and a day's group is
      perfect exactly when the logs dated that day number habit_count and
      are all completed. */
  lemma PerfectDayMeaning(recent: seq<HabitLog>, habitCount: int)
    ensures var g := GroupOf(DateEntries(recent));
            Keys(g) == SetOf(recent, (l: HabitLog) => l.date) && DistinctKeys(g) &&
            forall i :: 0 <= i < |g| ==> (IsPerfect(g[i], habitCount) <==> PerfectDate(recent, g[i].0, habitCount))
  {
    var e := DateEntries(recent);
    GroupOfProperties(e);
    KeysPointwise(e, recent, (l: HabitLog) => l.date);
    forall i | 0 <= i < |GroupOf(e)|
      ensures IsPerfect(GroupOf(e)[i], habitCount) <==> PerfectDate(recent, GroupOf(e)[i].0, habitCount)
    {
      PerfectGroup(recent, i, habitCount);
    }
  }

  // ---------------------------------------------------------------------
  // The earn conditions

  /** The streak achievement is earned exactly when some habit's current
      streak reaches the threshold. */
  lemma StreakEarnedMeaning(a: Activity, t: int)
    ensures Earned(Criterion(StreakKind, t), a) <==>
            exists i :: 0 <= i < |a.habits| && HabitStreak(a.habits[i].id, a.logs) >= t
  {
    var streaks := Streaks(a.habits, a.logs);
    if Earned(Criterion(StreakKind, t), a) {
      var i :| 0 <= i < |streaks| && streaks[i] >= t;
      assert HabitStreak(a.habits[i].id, a.logs) >= t;
    }
    if exists i :: 0 <= i < |a.habits| && HabitStreak(a.habits[i].id, a.logs) >= t {
      var i :| 0 <= i < |a.habits| && HabitStreak(a.habits[i].id, a.logs) >= t;
      assert streaks[i] >= t;
    }
  }

  /** `sum(1 for log in logs if log.completed) / len(logs) * 100` */
  function OverallRate(logs: seq<HabitLog>): real
  {
    Percent(Count(logs, (l: HabitLog) => l.completed), |logs|)
  }

  /** Whether check_achievements grants an achievement with criterion c. */
  predicate Earned(c: Criterion, a: Activity)
  {
    var t := c.threshold;
    match c.kind
    case StreakKind => AnyStreakAtLeast(a.habits, a.logs, t)
    case HabitsKind => |a.habits| >= t
    case CompletionKind => a.logs != [] && OverallRate(a.logs) >= t as real
    case ConsistencyKind => a.logs != [] && LongestRun(SortedDistinct(LogDateList(a.logs))) >= t
    case DetoxKind => a.finishedDetoxPlans >= t
    case ScreenTimeKind =>
      var recent := RecentScreenLogs(a);
      recent != [] && DailyMean(recent) <= t as real
    case PerfectWeekKind =>
      var recent := RecentHabitLogs(a);
      recent != [] && a.habits != [] &&
      PerfectDays(GroupOf(DateEntries(recent)), |a.habits|) >= t
    case OtherKind(_) => false
  }

  /** The body of the check_achievements loop for one criterion. */
  method Evaluate(c: Criterion, a: Activity) returns (earned: bool)
    ensures earned == Earned(c, a)
  {
    var t := c.threshold;
    match c.kind {
      case StreakKind =>
        earned := AnyHabitReaches(a.habits, a.logs, t);
      case HabitsKind =>
        earned := |a.habits| >= t;
      case CompletionKind =>
        earned := a.logs != [] && OverallRate(a.logs) >= t as real;
      case ConsistencyKind =>
        earned := false;
        if a.logs != [] {
          var maxConsecutive := LongestRunOf(SortedDistinct(LogDateList(a.logs)));
          earned := maxConsecutive >= t;
        }
      case DetoxKind =>
        earned := a.finishedDetoxPlans >= t;
      case ScreenTimeKind =>
        var recent := RecentScreenLogs(a);
        earned := false;
        if recent != [] {
          var perDay := Build(DayEntries(recent));
          TallySize(DayEntries(recent));
          SetOfNonEmpty(DayEntries(recent), (p: (int, int)) => p.0);
          earned := Total(perDay) as real / |perDay| as real <= t as real;
        }
      case PerfectWeekKind =>
        var recent := RecentHabitLogs(a);
        earned := false;
        if recent != [] && a.habits != [] {
          var byDate := BuildGroups(DateEntries(recent));
          var perfect := CountPerfectDays(byDate, |a.habits|);
          earned := perfect >= t;
        }
      case OtherKind(_) =>
        earned := false;
    }
  }

  // ---------------------------------------------------------------------
  // Progress

  /** `min(100, int((value / max(1, t)) * 100))` */
  function RatioProgress(value: real, t: int): int
  {
    Min(100, Trunc(value / Max(1, t) as real * 100.0))
  }

  lemma QuotientBounds(v: real, d: real)
    requires d > 0.0
    ensures v >= 0.0 ==> v / d >= 0.0
    ensures v >= d <==> v / d >= 1.0
  {
    var q := v / d;
    assert q * d == v;
    if q >= 1.0 {
      assert q * d >= 1.0 * d;
    }
    if v >= d {
      assert q * d >= d;
    }
  }

  /** For a non-negative value the progress lies in [0, 100]; for a
      threshold of at least 1 it is 100 exactly when the value reaches it. */
  lemma RatioProgressBounds(value: real, t: int)
    requires value >= 0.0
    ensures 0 <= RatioProgress(value, t) <= 100
    ensures t >= 1 ==> (RatioProgress(value, t) == 100 <==> value >= t as real)
  {
    var d := Max(1, t) as real;
    var q := value / d;
    QuotientBounds(value, d);
    TruncMonotone(0.0, q * 100.0);
    if q >= 1.0 {
      TruncMonotone(100.0, q * 100.0);
    }
  }

  /** The screen-time progress: 100 at or below the target, falling linearly
      to 0 at 1.5 times the target, 0 beyond. */
  function ScreenProgress(average: real, t: int): int
  {
    if average <= t as real then 100
    else
      var maxAllowed := t as real * 1.5;
      if average <= maxAllowed then Trunc((maxAllowed - average) / (maxAllowed - t as real) * 100.0)
      else 0
  }

  lemma ScreenProgressBands(average: real, t: int)
    ensures 0 <= ScreenProgress(average, t) <= 100
    ensures ScreenProgress(average, t) == 100 <==> average <= t as real
    ensures average > t as real && average > t as real * 1.5 ==> ScreenProgress(average, t) == 0
  {
    var m := t as real * 1.5;
    if t as real < average <= m {
      var d := m - t as real;
      assert d > 0.0;
      QuotientBounds(m - average, d);
      TruncMonotone(0.0, (m - average) / d * 100.0);
    }
  }

  lemma QuotientMonotone(x: real, y: real, d: real)
    requires d > 0.0 && x <= y
    ensures x / d <= y / d
  {
    QuotientBounds(y - x, d);
    assert y / d - x / d == (y - x) / d;
  }

  /** More screen time never shows more progress. */
  lemma ScreenProgressMonotone(a1: real, a2: real, t: int)
    requires a1 <= a2
    ensures ScreenProgress(a1, t) >= ScreenProgress(a2, t)
  {
    ScreenProgressBands(a1, t);
    ScreenProgressBands(a2, t);
    var m := t as real * 1.5;
    if t as real < a1 && a2 <= m {
      var d := m - t as real;
      assert d > 0.0;
      QuotientMonotone(m - a2, m - a1, d);
      TruncMonotone((m - a2) / d * 100.0, (m - a1) / d * 100.0);
    }
  }

  /** calculate_achievement_progress */
  function Progress(c: Criterion, a: Activity): int
  {
    var t := c.threshold;
    match c.kind
    case StreakKind => RatioProgress(MaxStreak(a.habits, a.logs) as real, t)
    case HabitsKind => RatioProgress(|a.habits| as real, t)
    case CompletionKind => if a.logs == [] then 0 else RatioProgress(OverallRate(a.logs), t)
    case ConsistencyKind =>
      if a.logs == [] then 0 else RatioProgress(LongestRun(SortedDistinct(LogDateList(a.logs))) as real, t)
    case DetoxKind => RatioProgress(a.finishedDetoxPlans as real, t)
    case ScreenTimeKind =>
      var recent := RecentScreenLogs(a);
      if recent == [] then 0 else ScreenProgress(DailyMean(recent), t)
    case PerfectWeekKind =>
      var recent := RecentHabitLogs(a);
      if recent == [] || a.habits == [] then 0
      else RatioProgress(PerfectDays(GroupOf(DateEntries(recent)), |a.habits|) as real, t)
    case OtherKind(_) => 0
  }

  lemma OverallRateBounds(logs: seq<HabitLog>)
    ensures 0.0 <= OverallRate(logs) <= 100.0
  {
    PercentBounds(Count(logs, (l: HabitLog) => l.completed), |logs|);
  }

  /** Progress always lies in [0, 100] and is 0 for an unknown kind; for a
      threshold of at least 1 it reaches 100 exactly when the achievement
      would be granted. */
  lemma ProgressMatchesEarned(c: Criterion, a: Activity)
    ensures 0 <= Progress(c, a) <= 100
    ensures c.kind.OtherKind? ==> Progress(c, a) == 0
    ensures c.threshold >= 1 ==> (Progress(c, a) == 100 <==> Earned(c, a))
  {
    var t := c.threshold;
    match c.kind {
      case StreakKind =>
        RatioProgressBounds(MaxStreak(a.habits, a.logs) as real, t);
      case HabitsKind =>
        RatioProgressBounds(|a.habits| as real, t);
      case CompletionKind =>
        OverallRateBounds(a.logs);
        RatioProgressBounds(OverallRate(a.logs), t);
      case ConsistencyKind =>
        RatioProgressBounds(LongestRun(SortedDistinct(LogDateList(a.logs))) as real, t);
      case DetoxKind =>
        RatioProgressBounds(a.finishedDetoxPlans as real, t);
      case ScreenTimeKind =>
        ScreenProgressBands(DailyMean(RecentScreenLogs(a)), t);
      case PerfectWeekKind =>
        var recent := RecentHabitLogs(a);
        RatioProgressBounds(PerfectDays(GroupOf(DateEntries(recent)), |a.habits|) as real, t);
      case OtherKind(_) =>
    }
  }

  /** The progress loop of calculate_achievement_progress for one criterion. */
  method ComputeProgress(c: Criterion, a: Activity) returns (progress: int)
    ensures progress == Progress(c, a)
  {
    var t := c.threshold;
    progress := 0;
    match c.kind {
      case StreakKind =>
        progress := RatioProgress(MaxStreak(a.habits, a.logs) as real, t);
      case HabitsKind =>
        progress := RatioProgress(|a.habits| as real, t);
      case CompletionKind =>
        if a.logs != [] {
          progress := RatioProgress(OverallRate(a.logs), t);
        }
      case ConsistencyKind =>
        if a.logs != [] {
          var maxConsecutive := LongestRunOf(SortedDistinct(LogDateList(a.logs)));
          progress := RatioProgress(maxConsecutive as real, t);
        }
      case DetoxKind =>
        progress := RatioProgress(a.finishedDetoxPlans as real, t);
      case ScreenTimeKind =>
        var recent := RecentScreenLogs(a);
        if recent != [] {
          var perDay := Build(DayEntries(recent));
          TallySize(DayEntries(recent));
          SetOfNonEmpty(DayEntries(recent), (p: (int, int)) => p.0);
          progress := ScreenProgress(Total(perDay) as real / |perDay| as real, t);
        }
      case PerfectWeekKind =>
        var recent := RecentHabitLogs(a);
        if recent != [] && a.habits != [] {
          var byDate := BuildGroups(DateEntries(recent));
          var perfect := CountPerfectDays(byDate, |a.habits|);
          progress := RatioProgress(perfect as real, t);
        }
      case OtherKind(_) =>
    }
  }

  // ---------------------------------------------------------------------
  // Requirement text

  /** The "H hours M minutes" phrase of a screen-time target. */
  function DurationText(t: int): string
  {
    var hours := t / 60;
    var minutes := t % 60;
    var hoursText := if hours > 0 then IntToString(hours) + " hours" else "";
    if minutes > 0 then
      (if hoursText != "" then hoursText + " " + IntToString(minutes) + " minutes"
       else IntToString(minutes) + " minutes")
    else hoursText
  }

  /** get_achievement_requirement_text */
  function RequirementText(c: Criterion): string
  {
    var t := IntToString(c.threshold);
    match c.kind
    case StreakKind => "Maintain a streak of " + t + " days for any habit"
    case HabitsKind => "Create " + t + " habits"
    case CompletionKind => "Achieve a " + t + "% completion rate across all habits"
    case ConsistencyKind => "Log habits for " + t + " consecutive days"
    case DetoxKind => "Complete " + t + " digital detox plans"
    case ScreenTimeKind => "Maintain average daily screen time below " + DurationText(c.threshold)
    case PerfectWeekKind => "Complete all habits for " + t + " days in a week"
    case OtherKind(_) => "Keep going to unlock this achievement"
  }

  lemma MatchInMiddle(p: string, x: string, q: string)
    ensures MatchAt(p + x + q, x, |p|)
  {
    assert (p + x + q)[|p|..|p| + |x|] == x;
  }

  /** The text of every known kind but screen time shows the threshold. */
  lemma RequirementTextShowsThreshold(c: Criterion)
    ensures !c.kind.ScreenTimeKind? && !c.kind.OtherKind? ==>
            Contains(RequirementText(c), IntToString(c.threshold))
  {
    var t := IntToString(c.threshold);
    match c.kind {
      case StreakKind => MatchInMiddle("Maintain a streak of ", t, " days for any habit");
      case HabitsKind => MatchInMiddle("Create ", t, " habits");
      case CompletionKind => MatchInMiddle("Achieve a ", t, "% completion rate across all habits");
      case ConsistencyKind => MatchInMiddle("Log habits for ", t, " consecutive days");
      case DetoxKind => MatchInMiddle("Complete ", t, " digital detox plans");
      case PerfectWeekKind => MatchInMiddle("Complete all habits for ", t, " days in a week");
      case ScreenTimeKind =>
      case OtherKind(_) =>
    }
  }

  /** A text that occurs in s occurs in p + s. */
  lemma ContainsAfter(p: string, s: string, sub: string)
    requires Contains(s, sub)
    ensures Contains(p + s, sub)
  {
    var i :| 0 <= i <= |s| - |sub| && MatchAt(s, sub, i);
    assert (p + s)[|p| + i..|p| + i + |sub|] == s[i..i + |sub|];
    assert MatchAt(p + s, sub, |p| + i);
  }

  /** The duration phrase shows the hours and the minutes of the target that
      are positive, which add back up to it. */
  lemma DurationTextShows(t: int)
    ensures var h, m := t / 60, t % 60;
            h * 60 + m == t && 0 <= m < 60 &&
            (h > 0 ==> Contains(DurationText(t), IntToString(h) + " hours")) &&
            (m > 0 ==> Contains(DurationText(t), IntToString(m) + " minutes"))
  {
    if t / 60 > 0 && t % 60 > 0 {
      DurationOfBoth(t);
    } else if t / 60 > 0 {
      DurationOfHours(t);
    } else if t % 60 > 0 {
      DurationOfMinutes(t);
    }
  }

  lemma DurationOfBoth(t: int)
    requires t / 60 > 0 && t % 60 > 0
    ensures Contains(DurationText(t), IntToString(t / 60) + " hours")
    ensures Contains(DurationText(t), IntToString(t % 60) + " minutes")
  {
    var hs := IntToString(t / 60) + " hours";
    var ms := IntToString(t % 60) + " minutes";
    assert DurationText(t) == hs + " " + ms;
    SpacedShowsBoth(hs, ms);
  }

  /** Both halves of `a + " " + b` occur in it. */
  lemma SpacedShowsBoth(a: string, b: string)
    ensures Contains(a + " " + b, a) && Contains(a + " " + b, b)
  {
    MatchInMiddle("", a, " " + b);
    assert "" + a + (" " + b) == a + " " + b;
    MatchInMiddle(a + " ", b, "");
    assert a + " " + b + "" == a + " " + b;
  }

  lemma DurationOfHours(t: int)
    requires t / 60 > 0 && t % 60 == 0
    ensures Contains(DurationText(t), IntToString(t / 60) + " hours")
  {
    var hs := IntToString(t / 60) + " hours";
    assert DurationText(t) == hs;
    MatchInMiddle("", hs, "");
    assert "" + hs + "" == DurationText(t);
  }

  lemma DurationOfMinutes(t: int)
    requires t / 60 <= 0 && t % 60 > 0
    ensures Contains(DurationText(t), IntToString(t % 60) + " minutes")
  {
    var ms := IntToString(t % 60) + " minutes";
    assert DurationText(t) == ms;
    MatchInMiddle("", ms, "");
    assert "" + ms + "" == DurationText(t);
  }

  /** The screen-time text shows the hours and minutes of the target that
      are positive, which add back up to it. */
  lemma ScreenTimeTextShowsDuration(c: Criterion)
    ensures c.kind.ScreenTimeKind? ==>
            var h, m := c.threshold / 60, c.threshold % 60;
            h * 60 + m == c.threshold && 0 <= m < 60 &&
            (h > 0 ==> Contains(RequirementText(c), IntToString(h) + " hours")) &&
            (m > 0 ==> Contains(RequirementText(c), IntToString(m) + " minutes"))
  {
    if c.kind.ScreenTimeKind? {
      var h, m := c.threshold / 60, c.threshold % 60;
      var pre := "Maintain average daily screen time below ";
      DurationTextShows(c.threshold);
      assert RequirementText(c) == pre + DurationText(c.threshold);
      if h > 0 {
        ContainsAfter(pre, DurationText(c.threshold), IntToString(h) + " hours");
      }
      if m > 0 {
        ContainsAfter(pre, DurationText(c.threshold), IntToString(m) + " minutes");
      }
    }
  }
}
