/** The loops over a user's habits that call Habit.current_streak(): the
    any-habit check of the streak achievement and the longest-streak scan of
    the achievements page and leaderboard (app/gamification/routes.py). */
module HabitStreaks {
  import opened Lists
  import opened Models

  /** The longest-streak loop of the achievements page and the leaderboard:
      replace the running value only on a strictly larger streak. */
  method LongestStreak(habits: seq<Habit>, logs: seq<HabitLog>) returns (longest: int)
    ensures longest == MaxStreak(habits, logs)
  {
    ghost var streaks := Streaks(habits, logs);
    longest := 0;
    var i := 0;
    while i < |habits|
      invariant 0 <= i <= |habits|
      invariant longest == MaxOf(streaks[..i])
    {
      var streak := StreakAt(habits, logs, i);
      assert streaks[..i + 1][..i] == streaks[..i];
      if streak > longest {
        longest := streak;
      }
      i := i + 1;
    }
    assert streaks[..|habits|] == streaks;
  }

  /** `habits[i].current_streak()` */
  method StreakAt(habits: seq<Habit>, logs: seq<HabitLog>, i: int) returns (streak: int)
    requires 0 <= i < |habits|
    ensures streak == Streaks(habits, logs)[i]
  {
    streak := CurrentStreak(CompletedDates(habits[i].id, logs));
    assert streak == HabitStreak(habits[i].id, logs);
  }

  /** The streak branch: walk the habits and stop at the first whose
      current streak reaches t. */
  method AnyHabitReaches(habits: seq<Habit>, logs: seq<HabitLog>, t: int) returns (found: bool)
    ensures found == AnyStreakAtLeast(habits, logs, t)
  {
    ghost var streaks := Streaks(habits, logs);
    found := false;
    var i := 0;
    while i < |habits|
      invariant 0 <= i <= |habits|
      invariant !found
      invariant forall j :: 0 <= j < i ==> streaks[j] < t
    {
      var streak := StreakAt(habits, logs, i);
      if streak >= t {
        found := true;
        return;
      }
      i := i + 1;
    }
  }
}
