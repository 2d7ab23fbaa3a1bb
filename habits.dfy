/** The habit routes (app/habits/routes.py): creating a habit with its
    digital twin, deleting a habit, the per-day log upsert with the twin's
    step, the 30-day view of one habit and the monthly calendar with its
    statistics. The random draws of the source are parameters. */
module Habits {
  import opened Text
  import opened Lists
  import opened Numerics
  import opened Calendar
  import opened Sorting
  import opened Models

  /** What a habit route does: 404 for an unknown habit id, a redirect
      without changes for another user's habit, or its work. */
  datatype Outcome = NotFound | NotOwner | Created | Updated | Deleted

  function HasId(habitId: int): Habit -> bool
  {
    (h: Habit) => h.id == habitId
  }

  /** `HabitLog.query.filter_by(habit_id=..., user_id=..., date=...)` */
  function IsDayLog(habitId: int, userId: int, date: int): HabitLog -> bool
  {
    (l: HabitLog) => l.habitId == habitId && l.userId == userId && l.date == date
  }

  /** `DigitalTwin.query.filter_by(habit_id=..., user_id=...)` */
  function IsTwinOf(habitId: int, userId: int): DigitalTwin -> bool
  {
    (t: DigitalTwin) => t.habitId == habitId && t.userId == userId
  }

  function NotOfHabit(habitId: int): HabitLog -> bool
  {
    (l: HabitLog) => l.habitId != habitId
  }

  function NotTwinOf(habitId: int, userId: int): DigitalTwin -> bool
  {
    (t: DigitalTwin) => !(t.habitId == habitId && t.userId == userId)
  }

  // ---------------------------------------------------------------------
  // The digital twin's step

  /** The twin completes the day when the draw falls below its completion
      rate: its streak then grows by one, otherwise it drops to 0. */
  function TwinStep(t: DigitalTwin, draw: real): DigitalTwin
  {
    if draw < t.completionRate then t.(streak := t.streak + 1) else t.(streak := 0)
  }

  /** The twin after one step per draw, in order. */
  function TwinAfter(t: DigitalTwin, draws: seq<real>): DigitalTwin
  {
    if draws == [] then t else TwinStep(TwinAfter(t, draws[..|draws| - 1]), draws[|draws| - 1])
  }

  /** How many of the last draws in a row fell below the rate. */
  function TrailingHits(rate: real, draws: seq<real>): (n: nat)
    ensures n <= |draws|
    ensures forall i :: |draws| - n <= i < |draws| ==> draws[i] < rate
    ensures n < |draws| ==> draws[|draws| - 1 - n] >= rate
  {
    if draws == [] || draws[|draws| - 1] >= rate then 0
    else TrailingHits(rate, draws[..|draws| - 1]) + 1
  }

  /** After a series of steps the twin's streak counts the trailing draws
      below its rate, on top of its old streak when every draw was below
      it; nothing but the streak changes. */
  lemma {:induction false} TwinAfterStreak(t: DigitalTwin, draws: seq<real>)
    ensures TwinAfter(t, draws) == t.(streak := TwinAfter(t, draws).streak)
    ensures TwinAfter(t, draws).streak ==
              if TrailingHits(t.completionRate, draws) == |draws| then t.streak + |draws|
              else TrailingHits(t.completionRate, draws)
  {
    if draws != [] {
      TwinAfterStreak(t, draws[..|draws| - 1]);
    }
  }

  // ---------------------------------------------------------------------
  // The per-day log upsert

  /** The log table after submitting (completed, notes) for (habit, user)
      today: the first log of that day is updated in place, or else a new
      log with the next id is appended. */
  function LogUpsert(logs: seq<HabitLog>, habitId: int, userId: int, today: int,
                     completed: bool, notes: string, newId: int): seq<HabitLog>
  {
    var k := FirstIndex(logs, IsDayLog(habitId, userId, today));
    PutAt(logs, k, if k == -1 then HabitLog(newId, habitId, userId, today, completed, notes)
                   else logs[k].(completed := completed, notes := notes))
  }

  function DayLogCount(logs: seq<HabitLog>, habitId: int, userId: int, today: int): nat
  {
    Count(logs, IsDayLog(habitId, userId, today))
  }

  /** The upsert keeps every log of another day, habit or user, adds a log
      only when the day had none, leaves a log of the day that carries the
      submitted values, and so keeps at most one log per day: with at most
      one before there is exactly one after. */
  lemma LogUpsertProperties(logs: seq<HabitLog>, habitId: int, userId: int, today: int,
                            completed: bool, notes: string, newId: int)
    ensures var r := LogUpsert(logs, habitId, userId, today, completed, notes, newId);
            (forall j :: 0 <= j < |logs| && !IsDayLog(habitId, userId, today)(logs[j]) ==> r[j] == logs[j]) &&
            (|r| == |logs| + 1 <==> DayLogCount(logs, habitId, userId, today) == 0) &&
            (|r| == |logs| || |r| == |logs| + 1) &&
            exists j :: 0 <= j < |r| && IsDayLog(habitId, userId, today)(r[j]) && r[j].completed == completed && r[j].notes == notes
    ensures DayLogCount(logs, habitId, userId, today) <= 1 ==>
              DayLogCount(LogUpsert(logs, habitId, userId, today, completed, notes, newId), habitId, userId, today) == 1
  {
    var key := IsDayLog(habitId, userId, today);
    var k := FirstIndex(logs, key);
    var x := if k == -1 then HabitLog(newId, habitId, userId, today, completed, notes)
             else logs[k].(completed := completed, notes := notes);
    PutAtProperties(logs, key, k, x);
  }

  /** The twins after a new log: the habit's twin, if the user has one,
      takes one step with the draw. */
  function TwinUpdate(twins: seq<DigitalTwin>, habitId: int, userId: int, draw: real): seq<DigitalTwin>
  {
    var t := FirstIndex(twins, IsTwinOf(habitId, userId));
    if t == -1 then twins else twins[t := TwinStep(twins[t], draw)]
  }

  /** Deleting a habit drops exactly its logs and the user's twin of it. */
  lemma DeleteHabitRemovesExactly(logs: seq<HabitLog>, twins: seq<DigitalTwin>, habitId: int, userId: int)
    ensures forall l :: l in Filter(logs, NotOfHabit(habitId)) <==> l in logs && l.habitId != habitId
    ensures forall t :: t in Filter(twins, NotTwinOf(habitId, userId)) <==>
              t in twins && !(t.habitId == habitId && t.userId == userId)
  {
    FilterMembers(logs, NotOfHabit(habitId));
    FilterMembers(twins, NotTwinOf(habitId, userId));
  }

  /** Two logs of the same habit, user and day. */
  predicate SameDay(a: HabitLog, b: HabitLog)
  {
    a.habitId == b.habitId && a.userId == b.userId && a.date == b.date
  }

  /** The table keeps at most one log per (habit, user, day), which is what
      the upsert of log_habit is for. */
  predicate OneLogPerDay(logs: seq<HabitLog>)
  {
    forall i, j :: 0 <= i < j < |logs| ==> !SameDay(logs[i], logs[j])
  }

  /** With one log per day, no day has two logs of a habit and user. */
  lemma {:induction false} OneLogPerDayCount(logs: seq<HabitLog>, habitId: int, userId: int, date: int)
    requires OneLogPerDay(logs)
    ensures DayLogCount(logs, habitId, userId, date) <= 1
  {
    if logs != [] {
      var p := IsDayLog(habitId, userId, date);
      assert OneLogPerDay(logs[1..]) by {
        forall i, j | 0 <= i < j < |logs[1..]| ensures !SameDay(logs[1..][i], logs[1..][j]) {
          assert logs[1..][i] == logs[i + 1] && logs[1..][j] == logs[j + 1];
        }
      }
      if p(logs[0]) {
        forall j | 0 <= j < |logs[1..]| ensures !p(logs[1..][j]) {
          assert logs[1..][j] == logs[j + 1];
          assert !SameDay(logs[0], logs[j + 1]);
        }
      } else {
        OneLogPerDayCount(logs[1..], habitId, userId, date);
      }
    }
  }

  /** The upsert keeps one log per day. */
  lemma LogUpsertKeepsOnePerDay(logs: seq<HabitLog>, habitId: int, userId: int, today: int,
                                completed: bool, notes: string, newId: int)
    requires OneLogPerDay(logs)
    ensures OneLogPerDay(LogUpsert(logs, habitId, userId, today, completed, notes, newId))
  {
    var k := FirstIndex(logs, IsDayLog(habitId, userId, today));
    var r := LogUpsert(logs, habitId, userId, today, completed, notes, newId);
    if k == -1 {
      forall i | 0 <= i < |logs| ensures !SameDay(logs[i], r[|logs|]) {
        assert !IsDayLog(habitId, userId, today)(logs[i]);
      }
    } else {
      assert forall j :: 0 <= j < |r| ==> r[j] == logs[j] || (j == k && SameDay(r[j], logs[j]));
    }
  }

  /** After the upsert of a table with one log per day, the table still
      has one log per day, and exactly one for the day submitted. */
  lemma DayLogsAfterUpsert(logs: seq<HabitLog>, habitId: int, userId: int, today: int,
                           completed: bool, notes: string, newId: int)
    requires OneLogPerDay(logs)
    ensures OneLogPerDay(LogUpsert(logs, habitId, userId, today, completed, notes, newId))
    ensures DayLogCount(LogUpsert(logs, habitId, userId, today, completed, notes, newId), habitId, userId, today) == 1
  {
    LogUpsertKeepsOnePerDay(logs, habitId, userId, today, completed, notes, newId);
    OneLogPerDayCount(logs, habitId, userId, today);
    LogUpsertProperties(logs, habitId, userId, today, completed, notes, newId);
  }

  /** Every habit's id is below the next one to hand out. */
  predicate HabitIdsBelow(habits: seq<Habit>, nextId: int)
  {
    forall i :: 0 <= i < |habits| ==> habits[i].id < nextId
  }

  /** Removing a habit keeps the ids below the next one. */
  lemma RemoveKeepsHabitIds(habits: seq<Habit>, i: int, nextId: int)
    requires HabitIdsBelow(habits, nextId) && 0 <= i < |habits|
    ensures HabitIdsBelow(RemoveAt(habits, i), nextId)
  {
  }

  /** Every log's id is below the next one to hand out. */
  predicate LogIdsBelow(logs: seq<HabitLog>, nextId: int)
  {
    forall i :: 0 <= i < |logs| ==> logs[i].id < nextId
  }

  /** The upsert keeps the ids below the next one; a created log takes it. */
  lemma LogIdsAfterUpsert(logs: seq<HabitLog>, habitId: int, userId: int, today: int,
                          completed: bool, notes: string, nextId: int)
    requires LogIdsBelow(logs, nextId)
    ensures var k := FirstIndex(logs, IsDayLog(habitId, userId, today));
            LogIdsBelow(LogUpsert(logs, habitId, userId, today, completed, notes, nextId),
                        if k == -1 then nextId + 1 else nextId)
  {
  }

  /** Dropping logs keeps the ids below the next one. */
  lemma FilterKeepsLogIds(logs: seq<HabitLog>, p: HabitLog -> bool, nextId: int)
    requires LogIdsBelow(logs, nextId)
    ensures LogIdsBelow(Filter(logs, p), nextId)
  {
  }

  /** Dropping logs keeps one log per day. */
  lemma {:induction false} FilterKeepsOnePerDay(logs: seq<HabitLog>, p: HabitLog -> bool)
    requires OneLogPerDay(logs)
    ensures OneLogPerDay(Filter(logs, p))
  {
    if logs != [] {
      assert OneLogPerDay(logs[1..]) by {
        forall i, j | 0 <= i < j < |logs[1..]| ensures !SameDay(logs[1..][i], logs[1..][j]) {
          assert logs[1..][i] == logs[i + 1] && logs[1..][j] == logs[j + 1];
        }
      }
      FilterKeepsOnePerDay(logs[1..], p);
      var rest := Filter(logs[1..], p);
      if p(logs[0]) {
        var r := [logs[0]] + rest;
        forall j | 0 <= j < |rest| ensures !SameDay(logs[0], rest[j]) {
          var m :| 0 <= m < |logs[1..]| && logs[1..][m] == rest[j];
          assert logs[m + 1] == rest[j];
        }
        forall a, b | 0 <= a < b < |r| ensures !SameDay(r[a], r[b]) {
          assert r[b] == rest[b - 1];
          if a > 0 {
            assert r[a] == rest[a - 1];
          }
        }
      }
    }
  }

  // ---------------------------------------------------------------------
  // The habit, log and twin tables

  class HabitStore {
    var habits: seq<Habit>
    var logs: seq<HabitLog>
    var twins: seq<DigitalTwin>
    var nextHabitId: int
    var nextLogId: int

    /** Every id handed out so far is below the next one, and no day has
        two logs of a habit and user. */
    predicate Valid()
      reads this
    {
      && HabitIdsBelow(habits, nextHabitId)
      && LogIdsBelow(logs, nextLogId)
      && OneLogPerDay(logs)
    }

    constructor ()
      ensures Valid() && habits == [] && logs == [] && twins == []
    {
      habits, logs, twins := [], [], [];
      nextHabitId, nextLogId := 1, 1;
    }

    /** new_habit: the habit gets a fresh id and a twin with the drawn
        completion rate and streak; random.uniform(0.6, 0.9) and
        random.randint(0, 5) keep the draws in range. The form admits names
        of 2 to 100 characters and a goal of at least 1. */
    method NewHabit(userId: int, name: string, frequency: string, goal: Option<int>,
                    rate: real, streak: int) returns (h: Habit)
      requires Valid()
      requires 2 <= |name| <= 100 && (goal.Some? ==> goal.value >= 1)
      requires 0.6 <= rate <= 0.9 && 0 <= streak <= 5
      modifies this
      ensures Valid()
      ensures h == Habit(old(nextHabitId), userId, name, frequency, goal)
      ensures forall i :: 0 <= i < |old(habits)| ==> old(habits)[i].id != h.id
      ensures habits == old(habits) + [h]
      ensures twins == old(twins) + [DigitalTwin(userId, h.id, rate, streak)]
      ensures 0.6 <= twins[|twins| - 1].completionRate <= 0.9 && 0 <= twins[|twins| - 1].streak <= 5
      ensures logs == old(logs) && nextLogId == old(nextLogId) && nextHabitId == old(nextHabitId) + 1
    {
      h := Habit(nextHabitId, userId, name, frequency, goal);
      habits := habits + [h];
      nextHabitId := nextHabitId + 1;
      twins := twins + [DigitalTwin(userId, h.id, rate, streak)];
    }

    /** get_or_404 by primary key. */
    method FindHabit(habitId: int) returns (i: int)
      ensures i == FirstIndex(habits, HasId(habitId))
    {
      i := 0;
      while i < |habits| && habits[i].id != habitId
        invariant 0 <= i <= |habits|
        invariant forall j :: 0 <= j < i ==> habits[j].id != habitId
      {
        i := i + 1;
      }
      if i == |habits| {
        i := -1;
      }
    }

    /** delete_habit: for the owner, removes the habit, every log of the
        habit and the user's twin of it; otherwise changes nothing. */
    method DeleteHabit(userId: int, habitId: int) returns (r: Outcome)
      requires Valid()
      modifies this
      ensures Valid()
      ensures var i := FirstIndex(old(habits), HasId(habitId));
              && (i == -1 ==> r == NotFound)
              && (i >= 0 && old(habits)[i].userId != userId ==> r == NotOwner)
              && (i >= 0 && old(habits)[i].userId == userId ==> r == Deleted)
              && (r == Deleted ==>
                    && habits == RemoveAt(old(habits), i)
                    && logs == Filter(old(logs), NotOfHabit(habitId))
                    && twins == Filter(old(twins), NotTwinOf(habitId, userId)))
      ensures r != Deleted ==> habits == old(habits) && logs == old(logs) && twins == old(twins)
      ensures nextHabitId == old(nextHabitId) && nextLogId == old(nextLogId)
    {
      var i := FindHabit(habitId);
      if i == -1 {
        return NotFound;
      }
      if habits[i].userId != userId {
        return NotOwner;
      }
      DropHabit(i, habitId, userId);
      r := Deleted;
    }

    /** The deletions of delete_habit: the habit at i, every log of the
        habit and the user's twin of it. */
    method DropHabit(i: int, habitId: int, userId: int)
      requires Valid() && 0 <= i < |habits|
      modifies this
      ensures Valid()
      ensures habits == RemoveAt(old(habits), i)
      ensures logs == Filter(old(logs), NotOfHabit(habitId))
      ensures twins == Filter(old(twins), NotTwinOf(habitId, userId))
      ensures nextHabitId == old(nextHabitId) && nextLogId == old(nextLogId)
    {
      var keptLogs := Filter(logs, NotOfHabit(habitId));
      FilterKeepsOnePerDay(logs, NotOfHabit(habitId));
      FilterKeepsLogIds(logs, NotOfHabit(habitId), nextLogId);
      var keptTwins := Filter(twins, NotTwinOf(habitId, userId));
      var keptHabits := RemoveAt(habits, i);
      RemoveKeepsHabitIds(habits, i, nextHabitId);
      logs, twins, habits := keptLogs, keptTwins, keptHabits;
    }

    /** log_habit on submit: for the owner, the day's log is updated in
        place or created; only a created log moves the twin a step. */
    method LogHabit(userId: int, habitId: int, today: int, completed: bool, notes: string, draw: real)
      returns (r: Outcome)
      requires Valid()
      modifies this
      ensures Valid()
      ensures var i := FirstIndex(old(habits), HasId(habitId));
              && (i == -1 ==> r == NotFound)
              && (i >= 0 && old(habits)[i].userId != userId ==> r == NotOwner)
              && (i >= 0 && old(habits)[i].userId == userId ==> r == Created || r == Updated)
      ensures r == Created || r == Updated ==>
                logs == LogUpsert(old(logs), habitId, userId, today, completed, notes, old(nextLogId))
      ensures r == Created <==> (r == Created || r == Updated) && DayLogCount(old(logs), habitId, userId, today) == 0
      ensures r == Created || r == Updated ==> DayLogCount(logs, habitId, userId, today) == 1
      ensures r == Created ==> twins == TwinUpdate(old(twins), habitId, userId, draw) && nextLogId == old(nextLogId) + 1
      ensures r != Created ==> twins == old(twins) && nextLogId == old(nextLogId)
      ensures r != Created && r != Updated ==> logs == old(logs)
      ensures habits == old(habits) && nextHabitId == old(nextHabitId)
    {
      var i := FindHabit(habitId);
      if i == -1 {
        return NotFound;
      }
      if habits[i].userId != userId {
        return NotOwner;
      }
      r := SubmitLog(userId, habitId, today, completed, notes, draw);
    }

    /** The submit branch of log_habit, once the habit is known to be the
        user's. */
    method SubmitLog(userId: int, habitId: int, today: int, completed: bool, notes: string, draw: real)
      returns (r: Outcome)
      requires Valid()
      modifies this
      ensures Valid()
      ensures r == Created || r == Updated
      ensures logs == LogUpsert(old(logs), habitId, userId, today, completed, notes, old(nextLogId))
      ensures r == Created <==> DayLogCount(old(logs), habitId, userId, today) == 0
      ensures DayLogCount(logs, habitId, userId, today) == 1
      ensures r == Created ==> twins == TwinUpdate(old(twins), habitId, userId, draw) && nextLogId == old(nextLogId) + 1
      ensures r == Updated ==> twins == old(twins) && nextLogId == old(nextLogId)
      ensures habits == old(habits) && nextHabitId == old(nextHabitId)
    {
      var k := LocateLog(habitId, userId, today);
      if k != -1 {
        var updated := logs[k].(completed := completed, notes := notes);
        logs := logs[k := updated];
        r := Updated;
      } else {
        var created := HabitLog(nextLogId, habitId, userId, today, completed, notes);
        logs := logs + [created];
        nextLogId := nextLogId + 1;
        r := Created;
        StepTwin(habitId, userId, draw);
      }
      DayLogsAfterUpsert(old(logs), habitId, userId, today, completed, notes, old(nextLogId));
      LogIdsAfterUpsert(old(logs), habitId, userId, today, completed, notes, old(nextLogId));
    }

    /** The AI rival's move after a created log: the habit's twin, if the
        user has one, steps with the draw. */
    method StepTwin(habitId: int, userId: int, draw: real)
      modifies this
      ensures twins == TwinUpdate(old(twins), habitId, userId, draw)
      ensures habits == old(habits) && logs == old(logs)
      ensures nextHabitId == old(nextHabitId) && nextLogId == old(nextLogId)
    {
      var t := LocateTwin(habitId, userId);
      if t != -1 {
        twins := twins[t := TwinStep(twins[t], draw)];
      }
    }

    method LocateLog(habitId: int, userId: int, date: int) returns (k: int)
      ensures k == FirstIndex(logs, IsDayLog(habitId, userId, date))
      ensures k == -1 <==> Count(logs, IsDayLog(habitId, userId, date)) == 0
    {
      k := 0;
      while k < |logs| && !IsDayLog(habitId, userId, date)(logs[k])
        invariant 0 <= k <= |logs|
        invariant forall j :: 0 <= j < k ==> !IsDayLog(habitId, userId, date)(logs[j])
      {
        k := k + 1;
      }
      if k == |logs| {
        k := -1;
      }
    }

    method LocateTwin(habitId: int, userId: int) returns (t: int)
      ensures t == FirstIndex(twins, IsTwinOf(habitId, userId))
    {
      t := 0;
      while t < |twins| && !IsTwinOf(habitId, userId)(twins[t])
        invariant 0 <= t <= |twins|
        invariant forall j :: 0 <= j < t ==> !IsTwinOf(habitId, userId)(twins[j])
      {
        t := t + 1;
      }
      if t == |twins| {
        t := -1;
      }
    }
  }

  // ---------------------------------------------------------------------
  // The habit page: one entry per day of the last 30

  datatype DayLog = DayLog(date: int, log: Option<HabitLog>)

  function OnDate(date: int): HabitLog -> bool
  {
    (l: HabitLog) => l.date == date
  }

  /** `next((log for log in logs if log.date == day), None)` */
  function FirstOnDate(logs: seq<HabitLog>, date: int): (r: Option<HabitLog>)
    ensures r.None? <==> forall j :: 0 <= j < |logs| ==> logs[j].date != date
    ensures r.Some? ==> r.value in logs && r.value.date == date
  {
    var k := FirstIndex(logs, OnDate(date));
    if k == -1 then None else Some(logs[k])
  }

  /** date_logs: entry i is today - i days with the first log of that day
      among the habit page's logs, or none. */
  method DateLogs(logs: seq<HabitLog>, today: int) returns (dateLogs: seq<DayLog>)
    ensures |dateLogs| == 30
    ensures forall i :: 0 <= i < 30 ==> dateLogs[i] == DayLog(today - i, FirstOnDate(logs, today - i))
  {
    dateLogs := [];
    var i := 0;
    while i < 30
      invariant 0 <= i <= 30 && |dateLogs| == i
      invariant forall j :: 0 <= j < i ==> dateLogs[j] == DayLog(today - j, FirstOnDate(logs, today - j))
    {
      var day := today - i;
      var k := 0;
      while k < |logs| && logs[k].date != day
        invariant 0 <= k <= |logs|
        invariant forall j :: 0 <= j < k ==> !OnDate(day)(logs[j])
      {
        k := k + 1;
      }
      var dayLog := if k < |logs| then Some(logs[k]) else None;
      assert k < |logs| ==> FirstIndex(logs, OnDate(day)) == k;
      dateLogs := dateLogs + [DayLog(day, dayLog)];
      i := i + 1;
    }
  }

  // ---------------------------------------------------------------------
  // The calendar page

  /** calendar_data as built by the loop: date to habit id to completed,
      a later log of the same day and habit overwriting an earlier one. */
  function CalendarOf(logs: seq<HabitLog>): map<int, map<int, bool>>
  {
    if logs == [] then map[]
    else
      var data := CalendarOf(logs[..|logs| - 1]);
      var l := logs[|logs| - 1];
      var day := if l.date in data then data[l.date] else map[];
      data[l.date := day[l.habitId := l.completed]]
  }

  /** The calendar holds exactly the dates of the logs. */
  lemma {:induction false} CalendarOfDates(logs: seq<HabitLog>)
    ensures forall d :: d in CalendarOf(logs) <==> exists j :: 0 <= j < |logs| && logs[j].date == d
  {
    if logs != [] {
      var init := logs[..|logs| - 1];
      CalendarOfDates(init);
      assert forall j :: 0 <= j < |init| ==> init[j] == logs[j];
    }
  }

  /** Under each date the calendar holds exactly the habits logged that
      day. */
  lemma {:induction false} CalendarOfHabits(logs: seq<HabitLog>)
    ensures forall d, h :: d in CalendarOf(logs) ==>
              (h in CalendarOf(logs)[d] <==> exists j :: 0 <= j < |logs| && logs[j].date == d && logs[j].habitId == h)
  {
    if logs != [] {
      var init := logs[..|logs| - 1];
      CalendarOfHabits(init);
      CalendarOfDates(init);
      assert forall j :: 0 <= j < |init| ==> init[j] == logs[j];
    }
  }

  /** logs[j] is the last log of habit h on date d. */
  predicate IsLastLog(logs: seq<HabitLog>, j: int, d: int, h: int)
  {
    && 0 <= j < |logs| && logs[j].date == d && logs[j].habitId == h
    && forall k :: j < k < |logs| ==> !(logs[k].date == d && logs[k].habitId == h)
  }

  lemma LastLogExtends(init: seq<HabitLog>, l: HabitLog, j: int, d: int, h: int)
    requires IsLastLog(init, j, d, h) && !(l.date == d && l.habitId == h)
    ensures IsLastLog(init + [l], j, d, h)
  {
    var logs := init + [l];
    forall k | j < k < |logs| ensures !(logs[k].date == d && logs[k].habitId == h) {
      if k < |init| {
        assert logs[k] == init[k];
      }
    }
  }

  /** Each (date, habit) pair carries the completed flag of its last log. */
  lemma {:induction false} CalendarOfLastLog(logs: seq<HabitLog>)
    ensures forall d, h :: d in CalendarOf(logs) && h in CalendarOf(logs)[d] ==>
              exists j :: IsLastLog(logs, j, d, h) && CalendarOf(logs)[d][h] == logs[j].completed
  {
    if logs != [] {
      var init := logs[..|logs| - 1];
      var l := logs[|logs| - 1];
      assert logs == init + [l];
      CalendarOfLastLog(init);
      var data := CalendarOf(logs);
      forall d, h | d in data && h in data[d]
        ensures exists j :: IsLastLog(logs, j, d, h) && data[d][h] == logs[j].completed
      {
        if d == l.date && h == l.habitId {
          assert IsLastLog(logs, |logs| - 1, d, h);
        } else {
          var prev := CalendarOf(init);
          assert d in prev && h in prev[d] && data[d][h] == prev[d][h];
          var j :| IsLastLog(init, j, d, h) && prev[d][h] == init[j].completed;
          LastLogExtends(init, l, j, d, h);
          assert logs[j] == init[j];
        }
      }
    }
  }

  /** The calendar_data loop. */
  method CalendarData(logs: seq<HabitLog>) returns (data: map<int, map<int, bool>>)
    ensures data == CalendarOf(logs)
  {
    data := map[];
    var i := 0;
    while i < |logs|
      invariant 0 <= i <= |logs|
      invariant data == CalendarOf(logs[..i])
    {
      var l := logs[i];
      assert logs[..i + 1][..i] == logs[..i];
      if l.date !in data {
        data := data[l.date := map[]];
      }
      data := data[l.date := data[l.date][l.habitId := l.completed]];
      i := i + 1;
    }
    assert logs[..|logs|] == logs;
  }

  /** The month change of the rate lies in [-100, 100]. */
  lemma RateChangeBounds(current: seq<HabitLog>, previous: seq<HabitLog>)
    ensures -100 <= RoundedRate(current) - RoundedRate(previous) <= 100
  {
    RoundedRateBounds(current);
    RoundedRateBounds(previous);
  }

  function OfHabit(habitId: int): HabitLog -> bool
  {
    (l: HabitLog) => l.habitId == habitId
  }

  /** `[log for log in logs if log.habit_id == habit.id]` */
  function HabitLogsIn(logs: seq<HabitLog>, h: Habit): seq<HabitLog>
  {
    Filter(logs, OfHabit(h.id))
  }

  /** For `habit_logs.sort(key=lambda x: x.date)`: earlier first. */
  predicate NotNewer(a: HabitLog, b: HabitLog) { a.date <= b.date }

  lemma NotNewerTotal()
    ensures TotalPreorder(NotNewer)
  {
  }

  /** A habit's month logs in date order; the sort is stable. */
  function DateOrdered(logs: seq<HabitLog>, h: Habit): seq<HabitLog>
  {
    SortBy(HabitLogsIn(logs, h), NotNewer)
  }

  /** `current_streak` after the first n entries: the completed entries in
      a row just before n. */
  function RunBefore(s: seq<HabitLog>, n: nat): nat
    requires n <= |s|
  {
    if n == 0 || !s[n - 1].completed then 0 else RunBefore(s, n - 1) + 1
  }

  /** The best `current_streak` over the first n entries. */
  function BestRunIn(s: seq<HabitLog>, n: nat): nat
    requires n <= |s|
  {
    if n == 0 then 0 else Max(BestRunIn(s, n - 1), RunBefore(s, n))
  }

  /** Entries st .. st + n - 1 of s are all completed. */
  predicate CompletedWindow(s: seq<HabitLog>, st: int, n: int)
  {
    0 <= st && 0 <= n && st + n <= |s| && forall k :: st <= k < st + n ==> s[k].completed
  }

  /** The len entries just before n are all completed. */
  predicate CompletedEndingAt(s: seq<HabitLog>, n: int, len: int)
  {
    0 <= len <= n && CompletedWindow(s, n - len, len)
  }

  /** The run before n is a completed window ending at n, and every
      completed window ending at n is no longer. */
  lemma {:induction false} RunBeforeWindow(s: seq<HabitLog>, n: nat)
    requires n <= |s|
    ensures CompletedEndingAt(s, n, RunBefore(s, n))
    ensures forall len :: CompletedEndingAt(s, n, len) ==> len <= RunBefore(s, n)
  {
    if n > 0 && s[n - 1].completed {
      RunBeforeWindow(s, n - 1);
      forall len | CompletedEndingAt(s, n, len) ensures len <= RunBefore(s, n) {
        if len > 0 {
          assert CompletedEndingAt(s, n - 1, len - 1);
        }
      }
    } else if n > 0 {
      assert forall len :: CompletedEndingAt(s, n, len) && len > 0 ==> s[n - 1].completed;
    } else {
      assert CompletedWindow(s, 0, 0);
    }
  }

  /** The best run in the first n entries is a completed window there, and
      no completed window there is longer. */
  lemma {:induction false} BestRunInWindow(s: seq<HabitLog>, n: nat)
    requires n <= |s|
    ensures exists st :: st + BestRunIn(s, n) <= n && CompletedWindow(s, st, BestRunIn(s, n))
    ensures forall st, len :: st + len <= n && CompletedWindow(s, st, len) ==> len <= BestRunIn(s, n)
  {
    if n == 0 {
      assert BestRunIn(s, n) == 0;
      assert 0 + BestRunIn(s, n) <= n && CompletedWindow(s, 0, BestRunIn(s, n));
    } else {
      BestRunInWindow(s, n - 1);
      RunBeforeWindow(s, n);
      var r := RunBefore(s, n);
      if BestRunIn(s, n - 1) < r {
        assert (n - r) + BestRunIn(s, n) <= n && CompletedWindow(s, n - r, BestRunIn(s, n));
      } else {
        var st :| st + BestRunIn(s, n - 1) <= n - 1 && CompletedWindow(s, st, BestRunIn(s, n - 1));
        assert st + BestRunIn(s, n) <= n && CompletedWindow(s, st, BestRunIn(s, n));
      }
      forall st, len | st + len <= n && CompletedWindow(s, st, len) ensures len <= BestRunIn(s, n) {
        if st + len == n {
          assert CompletedEndingAt(s, n, len);
        }
      }
    }
  }

  /** The best run of one habit's entries in date order. */
  function HabitBest(logs: seq<HabitLog>, h: Habit): nat
  {
    var s := DateOrdered(logs, h);
    BestRunIn(s, |s|)
  }

  function HabitBestOf(logs: seq<HabitLog>): Habit -> int
  {
    (h: Habit) => HabitBest(logs, h)
  }

  /** best_streak over the habits: the best run of completed entries of any
      habit, in date order. */
  function BestStreakOf(habits: seq<Habit>, logs: seq<HabitLog>): int
  {
    MaxOver(habits, HabitBestOf(logs))
  }

  /** best_streak is the best run of one of the habits, or 0, and no
      habit's best run is longer; with BestRunInWindow, it is the length of
      a run of completed entries of some habit and no habit has a longer
      one. */
  lemma BestStreakMeaning(habits: seq<Habit>, logs: seq<HabitLog>)
    ensures habits == [] ==> BestStreakOf(habits, logs) == 0
    ensures BestStreakOf(habits, logs) == 0 ||
            exists i :: 0 <= i < |habits| && BestStreakOf(habits, logs) == HabitBest(logs, habits[i])
    ensures forall i :: 0 <= i < |habits| ==> HabitBest(logs, habits[i]) <= BestStreakOf(habits, logs)
  {
    MaxOverMeaning(habits, HabitBestOf(logs));
  }

  /** The best_streak loops. */
  method BestStreak(habits: seq<Habit>, logs: seq<HabitLog>) returns (best: int)
    ensures best == BestStreakOf(habits, logs)
  {
    best := 0;
    var i := 0;
    while i < |habits|
      invariant 0 <= i <= |habits|
      invariant best == MaxOver(habits[..i], HabitBestOf(logs)) && best >= 0
    {
      assert habits[..i + 1][..i] == habits[..i];
      var habitLogs := DateOrdered(logs, habits[i]);
      best := RunLoop(habitLogs, best);
      assert HabitBestOf(logs)(habits[i]) == BestRunIn(habitLogs, |habitLogs|);
      i := i + 1;
    }
    assert habits[..|habits|] == habits;
  }

  /** The inner loop over one habit's entries in date order, carrying
      best_streak along. */
  method RunLoop(habitLogs: seq<HabitLog>, best0: int) returns (best: int)
    requires best0 >= 0
    ensures best == Max(best0, BestRunIn(habitLogs, |habitLogs|))
  {
    best := best0;
    var current := 0;
    var k := 0;
    while k < |habitLogs|
      invariant 0 <= k <= |habitLogs|
      invariant current == RunBefore(habitLogs, k)
      invariant best == Max(best0, BestRunIn(habitLogs, k))
    {
      if habitLogs[k].completed {
        current := current + 1;
        best := Max(best, current);
      } else {
        current := 0;
      }
      k := k + 1;
    }
  }

  datatype Consistent = Consistent(name: string, rate: int)

  function HasLogsOf(logs: seq<HabitLog>): Habit -> bool
  {
    (h: Habit) => HabitLogsIn(logs, h) != []
  }

  /** The habit's rounded completion rate over the month's logs. */
  function RateOf(logs: seq<HabitLog>): Habit -> int
  {
    (h: Habit) => RoundedRate(HabitLogsIn(logs, h))
  }

  /** most_consistent: a habit with logs replaces the pick only with a
      strictly higher rate, starting from ('None', 0). */
  function MostConsistentOf(habits: seq<Habit>, logs: seq<HabitLog>): Consistent
  {
    var p := PickIndex(habits, HasLogsOf(logs), RateOf(logs));
    if p == -1 then Consistent("None", 0) else Consistent(habits[p].name, RateOf(logs)(habits[p]))
  }

  /** The pick's rate is the highest rate of a habit with logs, and it
      stays ('None', 0) exactly when no such rate is positive; otherwise it
      names the first habit with logs that reaches the highest rate. */
  lemma MostConsistentMeaning(habits: seq<Habit>, logs: seq<HabitLog>)
    ensures var r := MostConsistentOf(habits, logs);
            0 <= r.rate <= 100 &&
            forall i :: 0 <= i < |habits| && HabitLogsIn(logs, habits[i]) != [] ==> RoundedRate(HabitLogsIn(logs, habits[i])) <= r.rate
    ensures var r := MostConsistentOf(habits, logs);
            r.rate == 0 <==> r == Consistent("None", 0)
    ensures var r := MostConsistentOf(habits, logs);
            r.rate > 0 ==>
              exists i :: 0 <= i < |habits| && HabitLogsIn(logs, habits[i]) != [] &&
                r == Consistent(habits[i].name, RoundedRate(HabitLogsIn(logs, habits[i]))) &&
                forall j :: 0 <= j < i && HabitLogsIn(logs, habits[j]) != [] ==> RoundedRate(HabitLogsIn(logs, habits[j])) < r.rate
  {
    var keep, f := HasLogsOf(logs), RateOf(logs);
    PickIndexMeaning(habits, keep, f);
    var p := PickIndex(habits, keep, f);
    if p >= 0 {
      RoundedRateBounds(HabitLogsIn(logs, habits[p]));
      assert keep(habits[p]) && f(habits[p]) > 0;
    }
  }

  /** The most_consistent loop. */
  method MostConsistent(habits: seq<Habit>, logs: seq<HabitLog>) returns (r: Consistent)
    ensures r == MostConsistentOf(habits, logs)
  {
    var pick := -1;
    r := Consistent("None", 0);
    var i := 0;
    while i < |habits|
      invariant 0 <= i <= |habits|
      invariant pick == PickIndex(habits[..i], HasLogsOf(logs), RateOf(logs))
      invariant r == (if pick == -1 then Consistent("None", 0) else Consistent(habits[pick].name, RateOf(logs)(habits[pick])))
    {
      PickIndexStep(habits, HasLogsOf(logs), RateOf(logs), i);
      var habitLogs := HabitLogsIn(logs, habits[i]);
      if habitLogs != [] {
        var rate := RoundedRate(habitLogs);
        if rate > r.rate {
          r := Consistent(habits[i].name, rate);
          pick := i;
        }
      }
      i := i + 1;
    }
    assert habits[..|habits|] == habits;
  }

  /** The month (y, m) can be shown without Python raising: its 1st, the 1st
      of the next month and the previous-month window all exist. */
  predicate CalendarDefined(y: int, m: int)
  {
    PrevWindowDefined(y, m) && (m < 12 || y < MaxYear)
  }

  /** The user's logs dated lo..hi inclusive. */
  function LogsBetween(logs: seq<HabitLog>, userId: int, lo: int, hi: int): seq<HabitLog>
  {
    Filter(logs, (l: HabitLog) => l.userId == userId && lo <= l.date <= hi)
  }

  function OwnedBy(userId: int): Habit -> bool
  {
    (h: Habit) => h.userId == userId
  }

  datatype MonthView = MonthView(
    year: int,
    month: int,
    startOfMonth: int,
    endOfMonth: int,
    days: seq<int>,
    prev: YearMonth,
    next: YearMonth,
    logs: seq<HabitLog>,
    calendarData: map<int, map<int, bool>>,
    completionRate: int,
    completionRateChange: int,
    bestStreak: int,
    mostConsistent: Consistent)

  /** The user's logs of month (y, m). */
  function MonthLogs(allLogs: seq<HabitLog>, userId: int, y: int, m: int): seq<HabitLog>
    requires CalendarDefined(y, m)
  {
    LogsBetween(allLogs, userId, Ordinal(CivilDate(y, m, 1)), EndOfMonth(y, m))
  }

  /** The user's logs of the previous-month window of (y, m): from
      PrevWindowStart up to the day before the 1st of (y, m). */
  function PrevWindowLogs(allLogs: seq<HabitLog>, userId: int, y: int, m: int): seq<HabitLog>
    requires CalendarDefined(y, m)
  {
    LogsBetween(allLogs, userId, Ordinal(PrevWindowStart(y, m)), Ordinal(CivilDate(y, m, 1)) - 1)
  }

  /** What the calendar page shows for month (y, m) of the user: the
      month's first and last day and its days in order, the navigation
      links, the user's logs of the month with calendar_data built from
      them, the rounded completion rate and its change against the
      previous-month window, best_streak and most_consistent over the
      user's habits. */
  ghost predicate MonthViewFor(v: MonthView, userId: int, habits: seq<Habit>, allLogs: seq<HabitLog>, y: int, m: int)
    requires CalendarDefined(y, m)
  {
    var monthLogs := MonthLogs(allLogs, userId, y, m);
    var userHabits := Filter(habits, OwnedBy(userId));
    && v.year == y && v.month == m
    && v.startOfMonth == Ordinal(CivilDate(y, m, 1))
    && v.endOfMonth == Ordinal(CivilDate(y, m, MonthLength(y, m)))
    && |v.days| == MonthLength(y, m)
    && (forall i :: 0 <= i < |v.days| ==> v.days[i] == v.startOfMonth + i)
    && v.prev == PrevMonth(YearMonth(y, m))
    && v.next == NextMonth(YearMonth(y, m))
    && v.logs == monthLogs
    && v.calendarData == CalendarOf(monthLogs)
    && v.completionRate == RoundedRate(monthLogs)
    && v.completionRateChange == v.completionRate - RoundedRate(PrevWindowLogs(allLogs, userId, y, m))
    && v.bestStreak == BestStreakOf(userHabits, monthLogs)
    && v.mostConsistent == MostConsistentOf(userHabits, monthLogs)
  }

  /** habit_calendar for the user: the month asked for, or today's month
      when either part is missing; Err where the source's datetime calls
      raise. */
  method HabitCalendar(userId: int, habits: seq<Habit>, allLogs: seq<HabitLog>,
                       year: Option<int>, month: Option<int>, today: CivilDate)
    returns (r: Result<MonthView>)
    requires Valid(today)
    ensures var y := if year.None? || month.None? then today.year else year.value;
            var m := if year.None? || month.None? then today.month else month.value;
            (r.Ok? <==> CalendarDefined(y, m)) &&
            (r.Ok? ==> MonthViewFor(r.value, userId, habits, allLogs, y, m))
  {
    var y, m;
    if year.None? || month.None? {
      y, m := today.year, today.month;
    } else {
      y, m := year.value, month.value;
    }
    if !CalendarDefined(y, m) {
      return Err("ValueError");
    }
    var v := ShowMonth(userId, habits, allLogs, y, m);
    r := Ok(v);
  }

  method ShowMonth(userId: int, habits: seq<Habit>, allLogs: seq<HabitLog>, y: int, m: int)
    returns (v: MonthView)
    requires CalendarDefined(y, m)
    ensures MonthViewFor(v, userId, habits, allLogs, y, m)
  {
    var userHabits := Filter(habits, OwnedBy(userId));
    var startOfMonth := Ordinal(CivilDate(y, m, 1));
    var endOfMonth := EndOfMonth(y, m);
    var prev := PrevMonth(YearMonth(y, m));
    var next := NextMonth(YearMonth(y, m));
    var logs := MonthLogs(allLogs, userId, y, m);
    var calendarData := CalendarData(logs);
    var days := DateRange(startOfMonth, endOfMonth - startOfMonth + 1);
    var completionRate := RoundedRate(logs);
    var prevLogs := PrevWindowLogs(allLogs, userId, y, m);
    var change := completionRate - RoundedRate(prevLogs);
    var bestStreak := BestStreak(userHabits, logs);
    var mostConsistent := MostConsistent(userHabits, logs);
    v := MonthView(y, m, startOfMonth, endOfMonth, days, prev, next, logs, calendarData,
                   completionRate, change, bestStreak, mostConsistent);
  }

  /** date_range: numDays consecutive days from start. */
  method DateRange(start: int, numDays: int) returns (days: seq<int>)
    ensures |days| == if numDays > 0 then numDays else 0
    ensures forall i :: 0 <= i < |days| ==> days[i] == start + i
  {
    days := [];
    var i := 0;
    while i < numDays
      invariant 0 <= i <= (if numDays > 0 then numDays else 0) && |days| == i
      invariant forall j :: 0 <= j < i ==> days[j] == start + j
    {
      days := days + [start + i];
      i := i + 1;
    }
  }
}
