/** The digital-wellbeing pages: the usage dashboard, the per-app limits
    and the digital detox plan. Query results arrive as sequences of rows;
    the tables the routes write to are classes whose methods change them. */
module Wellbeing {
  import opened Text
  import opened Lists
  import opened Numerics
  import opened Tally
  import opened Sorting
  import opened Models

  // ---------------------------------------------------------------------
  // digital_wellbeing: totals, apps by usage, daily average

  predicate NewerScreenLog(a: ScreenTimeLog, b: ScreenTimeLog) { a.date >= b.date }

  lemma NewerScreenLogTotal()
    ensures TotalPreorder(NewerScreenLog)
  {
  }

  /** `filter_by(user_id=...).order_by(ScreenTimeLog.date.desc()).all()`
      over the user's stored rows: newest first, rows of one date in the
      order they are stored. */
  function NewestFirst(logs: seq<ScreenTimeLog>): seq<ScreenTimeLog>
  {
    SortBy(logs, NewerScreenLog)
  }

  /** The query returns every stored row once, newest first. */
  lemma NewestFirstMeaning(logs: seq<ScreenTimeLog>)
    ensures var r := NewestFirst(logs);
            multiset(r) == multiset(logs) &&
            forall i, j :: 0 <= i < j < |r| ==> r[i].date >= r[j].date
  {
    NewerScreenLogTotal();
    SortBySorted(logs, NewerScreenLog);
  }

  /** `sorted(app_usage.items(), key=lambda x: x[1], reverse=True)`, where
      app_usage was filled from `rows` in their order: apps with equal
      sums stay in the order they were first met. */
  function RankedApps(rows: seq<ScreenTimeLog>): seq<(string, int)>
  {
    SortBy(TallyOf(AppEntries(rows)), MoreMinutes)
  }

  /** Two apps with the same total: the one logged on the later day is met
      first in the newest-first rows, so it is ranked first. */
  lemma TieGoesToLaterApp()
    ensures RankedApps(NewestFirst([ScreenTimeLog(1, 1, "A", 60), ScreenTimeLog(1, 2, "B", 60)]))
            == [("B", 60), ("A", 60)]
  {
    var a, b := ScreenTimeLog(1, 1, "A", 60), ScreenTimeLog(1, 2, "B", 60);
    assert [a, b][1..] == [b];
    assert SortBy([b], NewerScreenLog) == [b];
    assert NewestFirst([a, b]) == Insert(a, [b], NewerScreenLog) == [b, a];
    var e := AppEntries([b, a]);
    assert e == [("B", 60), ("A", 60)];
    assert e[..1] == [("B", 60)];
    assert TallyOf(e[..1]) == [("B", 60)];
    assert "B" != "A" by { assert "B"[0] != "A"[0]; }
    assert TallyOf(e) == Add([("B", 60)], "A", 60) == [("B", 60), ("A", 60)];
    var t := TallyOf(e);
    assert t[1..] == [("A", 60)];
    assert SortBy(t[1..], MoreMinutes) == [("A", 60)];
    assert SortBy(t, MoreMinutes) == Insert(("B", 60), [("A", 60)], MoreMinutes);
  }

  /** `total / len(dates) if dates else 0`, then divided by 60: hours per
      day that has a log. */
  function DailyAverageHours(logs: seq<ScreenTimeLog>): real
  {
    var days := |LogDates(logs)|;
    (if days == 0 then 0.0 else TotalMinutes(logs) as real / days as real) / 60.0
  }

  datatype UsageView = UsageView(totalScreenTime: int, topApps: seq<(string, int)>, dailyAverage: real)

  /** The dashboard over the user's stored rows: the query orders them
      newest first, then the app_usage loop, the sort and the averages. */
  method UsageDashboard(logs: seq<ScreenTimeLog>) returns (v: UsageView)
    ensures var rows := NewestFirst(logs);
            v == UsageView(TotalMinutes(rows), RankedApps(rows), DailyAverageHours(rows))
  {
    var rows := NewestFirst(logs);
    var usage := Build(AppEntries(rows));
    var topApps := SortBy(usage, MoreMinutes);
    v := UsageView(TotalMinutes(rows), topApps, DailyAverageHours(rows));
  }

  /** The apps by usage: each app of the logs exactly once, with the sum of
      its minutes, in descending order of those sums; the sums add up to
      the total screen time. */
  lemma RankedAppsMeaning(logs: seq<ScreenTimeLog>)
    ensures var r := RankedApps(logs);
            var e := AppEntries(logs);
            SortedBy(r, MoreMinutes) &&
            multiset(r) == multiset(TallyOf(e)) &&
            |r| == |Keys(e)| &&
            (forall i :: 0 <= i < |r| ==> r[i].0 in Keys(e) && r[i].1 == SumFor(e, r[i].0)) &&
            (forall k :: k in Keys(e) ==> exists i :: 0 <= i < |r| && r[i].0 == k)
    ensures Total(TallyOf(AppEntries(logs))) == TotalMinutes(logs)
  {
    var e := AppEntries(logs);
    var t := TallyOf(e);
    var r := RankedApps(logs);
    MoreMinutesTotal();
    SortBySorted(t, MoreMinutes);
    TallyKeys(e);
    TallySize(e);
    TallyItems(e);
    AppUsageTotal(logs);
    forall i | 0 <= i < |r|
      ensures r[i].0 in Keys(e) && r[i].1 == SumFor(e, r[i].0)
    {
      assert r[i] in multiset(t);
      var a :| 0 <= a < |t| && t[a] == r[i];
    }
    forall k | k in Keys(e)
      ensures exists i :: 0 <= i < |r| && r[i].0 == k
    {
      var a :| 0 <= a < |t| && t[a].0 == k;
      assert t[a] in multiset(r);
    }
  }

  /** Without logs the average is 0; otherwise, times 60 and times the
      number of days with a log, it gives back the total, and its minutes
      floor to the ScreenTime row's integer daily average. */
  lemma DailyAverageMeaning(logs: seq<ScreenTimeLog>)
    ensures logs == [] ==> DailyAverageHours(logs) == 0.0
    ensures logs != [] ==>
              1 <= |LogDates(logs)| <= |logs| &&
              DailyAverageHours(logs) * 60.0 * |LogDates(logs)| as real == TotalMinutes(logs) as real
    ensures (DailyAverageHours(logs) * 60.0).Floor == FloorDailyAverage(logs)
  {
    var days := |LogDates(logs)|;
    if logs != [] {
      SetOfNonEmpty(logs, (l: ScreenTimeLog) => l.date);
      DatesAtMostLogs(logs);
      FloorDivision(TotalMinutes(logs), days);
    } else {
      assert LogDates(logs) == {};
    }
  }

  /** There are no more days with a log than logs. */
  lemma {:induction false} DatesAtMostLogs(logs: seq<ScreenTimeLog>)
    ensures |LogDates(logs)| <= |logs|
  {
    if logs != [] {
      var init := logs[..|logs| - 1];
      DatesAtMostLogs(init);
      assert LogDates(logs) == LogDates(init) + {logs[|logs| - 1].date} by {
        forall d | d in LogDates(logs) ensures d in LogDates(init) + {logs[|logs| - 1].date} {
          var i :| 0 <= i < |logs| && logs[i].date == d;
          if i < |init| {
            assert init[i] == logs[i];
          }
        }
        forall d | d in LogDates(init) ensures d in LogDates(logs) {
          var i :| 0 <= i < |init| && init[i].date == d;
          assert logs[i] == init[i];
        }
      }
    }
  }

  // ---------------------------------------------------------------------
  // App limits: app_limits (upsert), toggle_app_limit, delete_app_limit

  /** What a request against one row by id came to. */
  datatype Outcome = NotFound | NotOwner | Done

  function HasLimitId(limitId: int): AppLimit -> bool
  {
    (l: AppLimit) => l.id == limitId
  }

  function IsLimitFor(userId: int, appName: string): AppLimit -> bool
  {
    (l: AppLimit) => l.userId == userId && l.appName == appName
  }

  /** No user has two limits for the same app. */
  predicate OneLimitPerApp(limits: seq<AppLimit>)
  {
    forall i, j :: 0 <= i < j < |limits| ==>
      !(limits[i].userId == limits[j].userId && limits[i].appName == limits[j].appName)
  }

  /** The limits after the form is submitted: the user's first limit for
      the app gets the minutes and is switched on, or else a new active
      limit is appended. */
  function LimitUpsert(limits: seq<AppLimit>, userId: int, appName: string, minutes: int, newId: int): seq<AppLimit>
  {
    var k := FirstIndex(limits, IsLimitFor(userId, appName));
    PutAt(limits, k, if k == -1 then AppLimit(newId, userId, appName, minutes, true)
                     else limits[k].(dailyLimitMinutes := minutes, isActive := true))
  }

  /** The upsert keeps every limit of another user or app, adds one only
      when the app had none, and leaves an active limit for the app with
      the submitted minutes; with at most one limit for the app before
      there is exactly one after. */
  lemma LimitUpsertProperties(limits: seq<AppLimit>, userId: int, appName: string, minutes: int, newId: int)
    ensures var r := LimitUpsert(limits, userId, appName, minutes, newId);
            (|r| == |limits| || |r| == |limits| + 1) &&
            (|r| == |limits| + 1 <==> Count(limits, IsLimitFor(userId, appName)) == 0) &&
            (forall j :: 0 <= j < |limits| && !IsLimitFor(userId, appName)(limits[j]) ==> r[j] == limits[j]) &&
            exists j :: 0 <= j < |r| && IsLimitFor(userId, appName)(r[j]) &&
                        r[j].dailyLimitMinutes == minutes && r[j].isActive
    ensures Count(limits, IsLimitFor(userId, appName)) <= 1 ==>
              Count(LimitUpsert(limits, userId, appName, minutes, newId), IsLimitFor(userId, appName)) == 1
  {
    var key := IsLimitFor(userId, appName);
    var k := FirstIndex(limits, key);
    var x := if k == -1 then AppLimit(newId, userId, appName, minutes, true)
             else limits[k].(dailyLimitMinutes := minutes, isActive := true);
    PutAtProperties(limits, key, k, x);
  }

  /** The route never creates a second limit for an app. */
  lemma LimitUpsertKeepsOnePerApp(limits: seq<AppLimit>, userId: int, appName: string, minutes: int, newId: int)
    requires OneLimitPerApp(limits)
    ensures OneLimitPerApp(LimitUpsert(limits, userId, appName, minutes, newId))
  {
    var k := FirstIndex(limits, IsLimitFor(userId, appName));
    var r := LimitUpsert(limits, userId, appName, minutes, newId);
    if k == -1 {
      assert r == limits + [AppLimit(newId, userId, appName, minutes, true)];
    } else {
      assert forall j :: 0 <= j < |r| ==> r[j].userId == limits[j].userId && r[j].appName == limits[j].appName;
    }
  }

  /** The limit at i with is_active flipped. */
  function ToggleAt(limits: seq<AppLimit>, i: int): seq<AppLimit>
    requires 0 <= i < |limits|
  {
    limits[i := limits[i].(isActive := !limits[i].isActive)]
  }

  /** Toggling changes only the flag of one limit, and toggling it twice
      gives the table back; the apps stay one limit each. */
  lemma ToggleAtProperties(limits: seq<AppLimit>, i: int)
    requires 0 <= i < |limits|
    ensures var r := ToggleAt(limits, i);
            |r| == |limits| &&
            r[i].isActive == !limits[i].isActive && r[i].(isActive := limits[i].isActive) == limits[i] &&
            (forall j :: 0 <= j < |limits| && j != i ==> r[j] == limits[j])
    ensures ToggleAt(ToggleAt(limits, i), i) == limits
    ensures OneLimitPerApp(limits) ==> OneLimitPerApp(ToggleAt(limits, i))
  {
    var r := ToggleAt(limits, i);
    assert forall j :: 0 <= j < |r| ==> r[j].userId == limits[j].userId && r[j].appName == limits[j].appName;
  }

  /** Deleting a limit leaves no limit for its user and app, and the other
      apps one limit each. */
  lemma DeleteLimitRemovesApp(limits: seq<AppLimit>, i: int)
    requires OneLimitPerApp(limits) && 0 <= i < |limits|
    ensures var r := RemoveAt(limits, i);
            OneLimitPerApp(r) &&
            forall j :: 0 <= j < |r| ==> !IsLimitFor(limits[i].userId, limits[i].appName)(r[j])
  {
    var r := RemoveAt(limits, i);
    forall j | 0 <= j < |r| ensures !IsLimitFor(limits[i].userId, limits[i].appName)(r[j]) {
      if j < i {
        assert r[j] == limits[j];
      } else {
        assert r[j] == limits[j + 1];
      }
    }
    forall a, b | 0 <= a < b < |r|
      ensures !(r[a].userId == r[b].userId && r[a].appName == r[b].appName)
    {
      var a', b' := if a < i then a else a + 1, if b < i then b else b + 1;
      assert r[a] == limits[a'] && r[b] == limits[b'] && a' < b';
    }
  }

  /** Every limit's id is below the next id to hand out. */
  predicate LimitIdsBelow(limits: seq<AppLimit>, nextId: int)
  {
    forall i :: 0 <= i < |limits| ==> limits[i].id < nextId
  }

  /** Every change the routes make keeps the ids below the next one. */
  lemma LimitIdsKept(limits: seq<AppLimit>, nextId: int, userId: int, appName: string, minutes: int)
    requires LimitIdsBelow(limits, nextId)
    ensures LimitIdsBelow(LimitUpsert(limits, userId, appName, minutes, nextId), nextId + 1)
  {
  }

  /** Toggling one limit keeps the ids below the next one. */
  lemma LimitIdsKeptByToggle(limits: seq<AppLimit>, nextId: int, i: int)
    requires LimitIdsBelow(limits, nextId) && 0 <= i < |limits|
    ensures LimitIdsBelow(ToggleAt(limits, i), nextId)
  {
  }

  /** Deleting one limit keeps the ids below the next one. */
  lemma LimitIdsKeptByDelete(limits: seq<AppLimit>, nextId: int, i: int)
    requires LimitIdsBelow(limits, nextId) && 0 <= i < |limits|
    ensures LimitIdsBelow(RemoveAt(limits, i), nextId)
  {
  }

  /** The AppLimit table. */
  class AppLimitStore {
    var limits: seq<AppLimit>
    var nextId: int

    /** One limit per user and app, and every id below the next one. */
    predicate Valid()
      reads this
    {
      && OneLimitPerApp(limits)
      && LimitIdsBelow(limits, nextId)
    }

    constructor ()
      ensures Valid() && limits == []
    {
      limits, nextId := [], 1;
    }

    /** app_limits on submit: the form admits a non-empty app name and a
        limit of at least 1 minute. */
    method SetLimit(userId: int, appName: string, minutes: int) returns (created: bool)
      requires Valid()
      requires |appName| > 0 && minutes >= 1
      modifies this
      ensures Valid()
      ensures limits == LimitUpsert(old(limits), userId, appName, minutes, old(nextId))
      ensures created <==> Count(old(limits), IsLimitFor(userId, appName)) == 0
      ensures nextId == old(nextId) + (if created then 1 else 0)
    {
      LimitUpsertKeepsOnePerApp(limits, userId, appName, minutes, nextId);
      LimitIdsKept(limits, nextId, userId, appName, minutes);
      var k := LocateLimit(userId, appName);
      if k != -1 {
        limits := limits[k := limits[k].(dailyLimitMinutes := minutes, isActive := true)];
        created := false;
      } else {
        limits := limits + [AppLimit(nextId, userId, appName, minutes, true)];
        nextId := nextId + 1;
        created := true;
      }
    }

    /** `AppLimit.query.filter_by(user_id=..., app_name=...).first()` */
    method LocateLimit(userId: int, appName: string) returns (k: int)
      ensures k == FirstIndex(limits, IsLimitFor(userId, appName))
      ensures k == -1 <==> Count(limits, IsLimitFor(userId, appName)) == 0
    {
      k := 0;
      while k < |limits| && !IsLimitFor(userId, appName)(limits[k])
        invariant 0 <= k <= |limits|
        invariant forall j :: 0 <= j < k ==> !IsLimitFor(userId, appName)(limits[j])
      {
        k := k + 1;
      }
      if k == |limits| {
        k := -1;
      }
    }

    /** `AppLimit.query.get_or_404(limit_id)` */
    method FindLimit(limitId: int) returns (i: int)
      ensures i == FirstIndex(limits, HasLimitId(limitId))
    {
      i := 0;
      while i < |limits| && limits[i].id != limitId
        invariant 0 <= i <= |limits|
        invariant forall j :: 0 <= j < i ==> !HasLimitId(limitId)(limits[j])
      {
        i := i + 1;
      }
      if i == |limits| {
        i := -1;
      }
    }

    /** toggle_app_limit: for the owner, flips is_active; otherwise changes
        nothing. */
    method ToggleLimit(userId: int, limitId: int) returns (r: Outcome)
      requires Valid()
      modifies this
      ensures Valid()
      ensures var i := FirstIndex(old(limits), HasLimitId(limitId));
              && (i == -1 ==> r == NotFound)
              && (i >= 0 && old(limits)[i].userId != userId ==> r == NotOwner)
              && (i >= 0 && old(limits)[i].userId == userId ==> r == Done && limits == ToggleAt(old(limits), i))
      ensures r != Done ==> limits == old(limits)
      ensures nextId == old(nextId)
    {
      var i := FindLimit(limitId);
      if i == -1 {
        return NotFound;
      }
      if limits[i].userId != userId {
        return NotOwner;
      }
      var limit := limits[i].(isActive := !limits[i].isActive);
      ToggleAtProperties(limits, i);
      LimitIdsKeptByToggle(limits, nextId, i);
      limits := limits[i := limit];
      r := Done;
    }

    /** delete_app_limit: for the owner, removes the limit; otherwise
        changes nothing. */
    method DeleteLimit(userId: int, limitId: int) returns (r: Outcome)
      requires Valid()
      modifies this
      ensures Valid()
      ensures var i := FirstIndex(old(limits), HasLimitId(limitId));
              && (i == -1 ==> r == NotFound)
              && (i >= 0 && old(limits)[i].userId != userId ==> r == NotOwner)
              && (i >= 0 && old(limits)[i].userId == userId ==> r == Done && limits == RemoveAt(old(limits), i))
      ensures r != Done ==> limits == old(limits)
      ensures nextId == old(nextId)
    {
      var i := FindLimit(limitId);
      if i == -1 {
        return NotFound;
      }
      if limits[i].userId != userId {
        return NotOwner;
      }
      var rest := RemoveAt(limits, i);
      DeleteLimitRemovesApp(limits, i);
      LimitIdsKeptByDelete(limits, nextId, i);
      limits := rest;
      r := Done;
    }
  }

  // ---------------------------------------------------------------------
  // digital_detox: suggestions and the plan upsert; deactivate_detox_plan

  /** The top app entries with more than an hour of use. */
  function OverAnHour(): ((string, int)) -> bool
  {
    (a: (string, int)) => a.1 > 60
  }

  /** `int(minutes * 0.3)` */
  function Reduction(minutes: int): int
  {
    Trunc(minutes as real * 0.3)
  }

  function ReductionOf(): ((string, int)) -> int
  {
    (a: (string, int)) => Reduction(a.1)
  }

  /** The suggestions, each an app entry of the top three with the minutes
      to cut from it: `"Reduce {app} usage by {int(minutes * 0.3)} minutes"`. */
  function DetoxSuggestionsOf(logs: seq<ScreenTimeLog>): seq<((string, int), int)>
  {
    FilterMap(Take(RankedApps(NewestFirst(logs)), 3), OverAnHour(), ReductionOf())
  }

  /** The detox_suggestions loop over `top_apps[:3]`, the apps tallied from
      the user's rows newest first. */
  method DetoxSuggestions(logs: seq<ScreenTimeLog>) returns (suggestions: seq<((string, int), int)>)
    ensures suggestions == DetoxSuggestionsOf(logs)
  {
    var rows := NewestFirst(logs);
    var usage := Build(AppEntries(rows));
    var top := Take(SortBy(usage, MoreMinutes), 3);
    suggestions := [];
    var i := 0;
    while i < |top|
      invariant 0 <= i <= |top|
      invariant suggestions == FilterMap(top[..i], OverAnHour(), ReductionOf())
    {
      FilterMapStep(top, OverAnHour(), ReductionOf(), i);
      var minutes := top[i].1;
      assert OverAnHour()(top[i]) == (minutes > 60);
      if minutes > 60 {
        suggestions := suggestions + [(top[i], Reduction(minutes))];
      }
      i := i + 1;
    }
    assert top[..|top|] == top;
  }

  /** A cut of 30%, truncated, is 3 tenths of the minutes rounded down: at
      least 18 for more than an hour, and less than the minutes. */
  lemma ReductionMeaning(minutes: int)
    requires minutes > 60
    ensures Reduction(minutes) == (3 * minutes) / 10
    ensures 18 <= Reduction(minutes) < minutes
  {
    assert minutes as real * 0.3 == (3 * minutes) as real / 10 as real;
    FloorDivision(3 * minutes, 10);
  }

  /** At most three suggestions; each is one of the three most-used apps,
      with more than an hour, and the cut of 30% of its minutes; and every
      such app has one. */
  lemma DetoxSuggestionsMeaning(logs: seq<ScreenTimeLog>)
    ensures var top := Take(RankedApps(NewestFirst(logs)), 3);
            var r := DetoxSuggestionsOf(logs);
            |r| <= 3 &&
            (forall i :: 0 <= i < |r| ==>
               r[i].0 in top && r[i].0.1 > 60 && r[i].1 == (3 * r[i].0.1) / 10 && 18 <= r[i].1 < r[i].0.1) &&
            (forall j :: 0 <= j < |top| && top[j].1 > 60 ==> (top[j], (3 * top[j].1) / 10) in r)
  {
    var top := Take(RankedApps(NewestFirst(logs)), 3);
    var r := DetoxSuggestionsOf(logs);
    FilterMapEntries(top, OverAnHour(), ReductionOf());
    FilterMapComplete(top, OverAnHour(), ReductionOf());
    forall i | 0 <= i < |r|
      ensures r[i].1 == (3 * r[i].0.1) / 10 && 18 <= r[i].1 < r[i].0.1
    {
      ReductionMeaning(r[i].0.1);
    }
    forall j | 0 <= j < |top| && top[j].1 > 60
      ensures (top[j], (3 * top[j].1) / 10) in r
    {
      ReductionMeaning(top[j].1);
    }
  }

  /** The settings a submitted detox form carries; the break interval is
      optional and None when left blank. */
  datatype DetoxSettings = DetoxSettings(
    dailyLimit: int, appBlocking: bool, notifications: bool, breakReminders: bool, breakInterval: Option<int>)

  function IsActivePlanOf(userId: int): DetoxPlan -> bool
  {
    (p: DetoxPlan) => p.userId == userId && p.isActive
  }

  /** No user has two active plans. */
  predicate OneActivePlan(plans: seq<DetoxPlan>)
  {
    forall i, j :: 0 <= i < j < |plans| && plans[i].userId == plans[j].userId ==>
      !(plans[i].isActive && plans[j].isActive)
  }

  /** The active plan updated with the form's settings: every field is
      assigned, so a blank break interval is written as None. */
  function WithSettings(p: DetoxPlan, s: DetoxSettings): DetoxPlan
  {
    p.(dailyLimitMinutes := s.dailyLimit, enableAppBlocking := s.appBlocking,
       enableNotifications := s.notifications, enableBreakReminders := s.breakReminders,
       breakIntervalMinutes := s.breakInterval)
  }

  /** The break interval a created plan stores: a None passed to the
      constructor leaves the column out of the INSERT, so its default of 60
      applies. */
  function CreatedInterval(s: DetoxSettings): Option<int>
  {
    if s.breakInterval.Some? then s.breakInterval else Some(60)
  }

  /** The plan created from the form. Its start date is the column
      default, the date taken when the models were loaded. */
  function NewPlan(newId: int, userId: int, s: DetoxSettings, startDate: int): DetoxPlan
  {
    DetoxPlan(newId, userId, s.dailyLimit, startDate, None, true,
              s.appBlocking, s.notifications, s.breakReminders, CreatedInterval(s))
  }

  /** The form's daily limit and switches are on the plan. */
  predicate HasSwitches(p: DetoxPlan, s: DetoxSettings)
  {
    p.dailyLimitMinutes == s.dailyLimit && p.enableAppBlocking == s.appBlocking &&
    p.enableNotifications == s.notifications && p.enableBreakReminders == s.breakReminders
  }

  /** The plans after the form is submitted: the user's first active plan
      takes the settings, or else a new active plan is appended. */
  function PlanUpsert(plans: seq<DetoxPlan>, userId: int, s: DetoxSettings, startDate: int, newId: int): seq<DetoxPlan>
  {
    var k := FirstIndex(plans, IsActivePlanOf(userId));
    PutAt(plans, k, if k == -1 then NewPlan(newId, userId, s, startDate) else WithSettings(plans[k], s))
  }

  /** The upsert keeps every other user's plan and every inactive plan, adds
      a plan only when the user had no active one, and leaves an active plan
      with the submitted limit and switches. Its break interval is the
      submitted one on an update, even when blank, and on a creation the
      submitted one or else 60. With at most one active plan before there
      is exactly one after. */
  lemma PlanUpsertProperties(plans: seq<DetoxPlan>, userId: int, s: DetoxSettings, startDate: int, newId: int)
    ensures var r := PlanUpsert(plans, userId, s, startDate, newId);
            (|r| == |plans| || |r| == |plans| + 1) &&
            (|r| == |plans| + 1 <==> Count(plans, IsActivePlanOf(userId)) == 0) &&
            (forall j :: 0 <= j < |plans| && !IsActivePlanOf(userId)(plans[j]) ==> r[j] == plans[j])
    ensures var r := PlanUpsert(plans, userId, s, startDate, newId);
            var k := FirstIndex(plans, IsActivePlanOf(userId));
            var j := if k == -1 then |plans| else k;
            && 0 <= j < |r| && IsActivePlanOf(userId)(r[j]) && HasSwitches(r[j], s)
            && (k >= 0 ==> r[j].breakIntervalMinutes == s.breakInterval && r[j].id == plans[k].id)
            && (k == -1 ==> r[j].breakIntervalMinutes.Some? &&
                            r[j].breakIntervalMinutes.value == (if s.breakInterval.Some? then s.breakInterval.value else 60) &&
                            r[j].id == newId && r[j].startDate == startDate && r[j].endDate.None?)
    ensures Count(plans, IsActivePlanOf(userId)) <= 1 ==>
              Count(PlanUpsert(plans, userId, s, startDate, newId), IsActivePlanOf(userId)) == 1
  {
    var key := IsActivePlanOf(userId);
    var k := FirstIndex(plans, key);
    var x := if k == -1 then NewPlan(newId, userId, s, startDate) else WithSettings(plans[k], s);
    PutAtProperties(plans, key, k, x);
  }

  /** The route never adds a second active plan. */
  lemma PlanUpsertKeepsOneActive(plans: seq<DetoxPlan>, userId: int, s: DetoxSettings, startDate: int, newId: int)
    requires OneActivePlan(plans)
    ensures OneActivePlan(PlanUpsert(plans, userId, s, startDate, newId))
  {
    var k := FirstIndex(plans, IsActivePlanOf(userId));
    var r := PlanUpsert(plans, userId, s, startDate, newId);
    if k != -1 {
      assert forall j :: 0 <= j < |r| ==> r[j].userId == plans[j].userId && r[j].isActive == plans[j].isActive;
    }
  }

  /** The plan switched off on the given day. */
  function Deactivated(p: DetoxPlan, today: int): DetoxPlan
  {
    p.(isActive := false, endDate := Some(today))
  }

  /** Switching off the user's active plan leaves the user without one,
      and still no user with two. */
  lemma DeactivateProperties(plans: seq<DetoxPlan>, i: int, today: int)
    requires OneActivePlan(plans) && 0 <= i < |plans|
    ensures var r := plans[i := Deactivated(plans[i], today)];
            OneActivePlan(r) &&
            (plans[i].isActive ==> forall j :: 0 <= j < |r| ==> !IsActivePlanOf(plans[i].userId)(r[j]))
  {
    var r := plans[i := Deactivated(plans[i], today)];
    forall a, b | 0 <= a < b < |r| && r[a].userId == r[b].userId
      ensures !(r[a].isActive && r[b].isActive)
    {
      assert r[a].isActive ==> plans[a].isActive;
      assert r[b].isActive ==> plans[b].isActive;
    }
    if plans[i].isActive {
      forall j | 0 <= j < |r| && j != i ensures !IsActivePlanOf(plans[i].userId)(r[j]) {
        assert r[j] == plans[j];
      }
    }
  }

  /** Every plan's id is below the next id to hand out. */
  predicate PlanIdsBelow(plans: seq<DetoxPlan>, nextId: int)
  {
    forall i :: 0 <= i < |plans| ==> plans[i].id < nextId
  }

  /** Every change the routes make keeps the ids below the next one. */
  lemma PlanIdsKept(plans: seq<DetoxPlan>, nextId: int, userId: int, s: DetoxSettings, startDate: int)
    requires PlanIdsBelow(plans, nextId)
    ensures PlanIdsBelow(PlanUpsert(plans, userId, s, startDate, nextId), nextId + 1)
  {
  }

  /** Deactivating one plan keeps the ids below the next one. */
  lemma PlanIdsKeptAt(plans: seq<DetoxPlan>, nextId: int, i: int, today: int)
    requires PlanIdsBelow(plans, nextId) && 0 <= i < |plans|
    ensures PlanIdsBelow(plans[i := Deactivated(plans[i], today)], nextId)
  {
  }

  /** The DigitalDetoxPlan table. */
  class DetoxStore {
    var plans: seq<DetoxPlan>
    var nextId: int

    /** One active plan per user at most, and every id below the next one. */
    predicate Valid()
      reads this
    {
      && OneActivePlan(plans)
      && PlanIdsBelow(plans, nextId)
    }

    constructor ()
      ensures Valid() && plans == []
    {
      plans, nextId := [], 1;
    }

    /** digital_detox on submit: the form admits a daily limit of at least
        1 minute and a break interval that is blank or at least 15;
        startDate is the start_date column's default. */
    method SavePlan(userId: int, s: DetoxSettings, startDate: int) returns (created: bool)
      requires Valid()
      requires s.dailyLimit >= 1 && (s.breakInterval.Some? ==> s.breakInterval.value >= 15)
      modifies this
      ensures Valid()
      ensures plans == PlanUpsert(old(plans), userId, s, startDate, old(nextId))
      ensures created <==> Count(old(plans), IsActivePlanOf(userId)) == 0
      ensures nextId == old(nextId) + (if created then 1 else 0)
    {
      PlanUpsertKeepsOneActive(plans, userId, s, startDate, nextId);
      PlanIdsKept(plans, nextId, userId, s, startDate);
      var k := LocateActivePlan(userId);
      if k != -1 {
        plans := plans[k := WithSettings(plans[k], s)];
        created := false;
      } else {
        var interval := if s.breakInterval.Some? then s.breakInterval else Some(60);
        var plan := DetoxPlan(nextId, userId, s.dailyLimit, startDate, None, true,
                              s.appBlocking, s.notifications, s.breakReminders, interval);
        plans := plans + [plan];
        nextId := nextId + 1;
        created := true;
      }
    }

    /** `DigitalDetoxPlan.query.filter_by(user_id=..., is_active=True).first()` */
    method LocateActivePlan(userId: int) returns (k: int)
      ensures k == FirstIndex(plans, IsActivePlanOf(userId))
      ensures k == -1 <==> Count(plans, IsActivePlanOf(userId)) == 0
    {
      k := 0;
      while k < |plans| && !IsActivePlanOf(userId)(plans[k])
        invariant 0 <= k <= |plans|
        invariant forall j :: 0 <= j < k ==> !IsActivePlanOf(userId)(plans[j])
      {
        k := k + 1;
      }
      if k == |plans| {
        k := -1;
      }
    }

    /** deactivate_detox_plan: for the owner, switches the plan off with
        today as its end date; otherwise changes nothing. */
    method DeactivatePlan(userId: int, planId: int, today: int) returns (r: Outcome)
      requires Valid()
      modifies this
      ensures Valid()
      ensures var i := FirstIndex(old(plans), (p: DetoxPlan) => p.id == planId);
              && (i == -1 ==> r == NotFound)
              && (i >= 0 && old(plans)[i].userId != userId ==> r == NotOwner)
              && (i >= 0 && old(plans)[i].userId == userId ==>
                    r == Done && plans == old(plans)[i := Deactivated(old(plans)[i], today)])
      ensures r != Done ==> plans == old(plans)
      ensures nextId == old(nextId)
    {
      var i := 0;
      while i < |plans| && plans[i].id != planId
        invariant 0 <= i <= |plans|
        invariant forall j :: 0 <= j < i ==> plans[j].id != planId
      {
        i := i + 1;
      }
      if i == |plans| {
        return NotFound;
      }
      if plans[i].userId != userId {
        return NotOwner;
      }
      DeactivateProperties(plans, i, today);
      PlanIdsKeptAt(plans, nextId, i, today);
      plans := plans[i := Deactivated(plans[i], today)];
      r := Done;
    }
  }
}
