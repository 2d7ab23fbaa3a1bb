/** The two leaderboards of app/gamification/routes.py: the sidebar on the
    achievements page and the full leaderboard page, each padded with
    sample users, stably sorted and cut. */
module Leaderboard {
  import opened Sorting
  import opened Numerics
  import opened Models
  import opened Lists

  /** A row of the sidebar widget on the achievements page. */
  datatype SidebarEntry = SidebarEntry(username: string, achievements: int)

  /** A row of the full leaderboard. */
  datatype LeaderEntry = LeaderEntry(username: string, completedHabits: int, longestStreak: int, achievements: int)

  /** A real user's row of the full leaderboard, from the user's logs,
      habits and number of achievement rows: the completed logs, the
      largest current streak (the strict-improvement loop, which
      `HabitStreaks.LongestStreak` proves equal to `MaxStreak`) and the
      achievements. */
  function UserStats(username: string, logs: seq<HabitLog>, habits: seq<Habit>, achievements: nat): (e: LeaderEntry)
    ensures e.username == username && e.achievements == achievements
    ensures 0 <= e.completedHabits <= |logs|
    ensures e.completedHabits == Count(logs, (l: HabitLog) => l.completed)
    ensures e.completedHabits == 0 <==> forall i :: 0 <= i < |logs| ==> !logs[i].completed
    ensures e.longestStreak >= 0
    ensures habits == [] ==> e.longestStreak == 0
    ensures forall i :: 0 <= i < |habits| ==> HabitStreak(habits[i].id, logs) <= e.longestStreak
    ensures habits != [] ==> exists i :: 0 <= i < |habits| && HabitStreak(habits[i].id, logs) == e.longestStreak
  {
    LeaderEntry(username, CompletedCount(logs), MaxStreak(habits, logs), achievements)
  }

  const SidebarSamples: seq<SidebarEntry> := [
    SidebarEntry("HealthyHabit123", 8),
    SidebarEntry("WellnessWarrior", 6),
    SidebarEntry("DigitalDetoxer", 5),
    SidebarEntry("MindfulMaster", 4),
    SidebarEntry("BalanceSeeker", 3)
  ]

  const LeaderSamples: seq<LeaderEntry> := [
    LeaderEntry("HealthyHabit123", 87, 21, 8),
    LeaderEntry("WellnessWarrior", 65, 14, 6),
    LeaderEntry("DigitalDetoxer", 52, 12, 5),
    LeaderEntry("MindfulMaster", 43, 9, 4),
    LeaderEntry("BalanceSeeker", 38, 7, 3),
    LeaderEntry("TechTimeManager", 31, 6, 3),
    LeaderEntry("FocusedFriend", 25, 5, 2),
    LeaderEntry("ScreenTimeSlayer", 19, 4, 2),
    LeaderEntry("HabitHero", 15, 3, 1)
  ]

  /** `key=achievements_count, reverse=True` */
  predicate MoreAchievements(a: SidebarEntry, b: SidebarEntry)
  {
    a.achievements >= b.achievements
  }

  /** `key=(achievements_count, completed_habits), reverse=True` */
  predicate RanksAbove(a: LeaderEntry, b: LeaderEntry)
  {
    a.achievements > b.achievements || (a.achievements == b.achievements && a.completedHabits >= b.completedHabits)
  }

  lemma MoreAchievementsTotal()
    ensures TotalPreorder(MoreAchievements)
  {
  }

  lemma RanksAboveTotal()
    ensures TotalPreorder(RanksAbove)
  {
  }

  /** `sample_users[:needed]`, where Python clamps the slice to the list. */
  function Prefix<T>(s: seq<T>, n: int): (r: seq<T>)
    ensures |r| == if n <= 0 then 0 else Min(n, |s|)
    ensures r == s[..|r|]
  {
    if n <= 0 then [] else if n >= |s| then s else s[..n]
  }

  /** The real users padded with the first sample users up to n. */
  function Padded<T>(users: seq<T>, samples: seq<T>, n: nat): seq<T>
  {
    if |users| < n then users + Prefix(samples, n - |users|) else users
  }

  /** Padding keeps every real user in front, and reaches n when there are
      enough samples. */
  lemma PaddedProperties<T>(users: seq<T>, samples: seq<T>, n: nat)
    ensures var p := Padded(users, samples, n);
            users <= p &&
            |p| == (if |users| < n then Min(n, |users| + |samples|) else |users|)
  {
  }

  /** The real users padded with sample users up to 5. */
  function SidebarPadded(users: seq<SidebarEntry>): seq<SidebarEntry>
  {
    Padded(users, SidebarSamples, 5)
  }

  /** The achievements page sidebar: pad, sort by achievements, take 5. */
  function SidebarBoard(users: seq<SidebarEntry>): seq<SidebarEntry>
  {
    Take(SortBy(SidebarPadded(users), MoreAchievements), 5)
  }

  /** The real users padded with sample users up to 10 (there are only
      nine sample users). */
  function LeaderPadded(users: seq<LeaderEntry>): seq<LeaderEntry>
  {
    Padded(users, LeaderSamples, 10)
  }

  function LeaderSorted(users: seq<LeaderEntry>): seq<LeaderEntry>
  {
    SortBy(LeaderPadded(users), RanksAbove)
  }

  /** `user_stats[:10]` */
  function LeaderBoard(users: seq<LeaderEntry>): seq<LeaderEntry>
  {
    Take(LeaderSorted(users), 10)
  }

  /** `user_stats[:5]`, the leaderboard page's sidebar. */
  function LeaderSidebar(users: seq<LeaderEntry>): seq<LeaderEntry>
  {
    Take(LeaderSorted(users), 5)
  }

  /** A board cut from a padded list shows every real user when the cut
      keeps the whole padded list. */
  lemma BoardShowsAll<T(!new)>(users: seq<T>, samples: seq<T>, n: nat, cut: nat, ge: (T, T) -> bool)
    requires |users| <= cut && n <= cut
    ensures multiset(users) <= multiset(Take(SortBy(Padded(users, samples, n), ge), cut))
  {
    var p := Padded(users, samples, n);
    PaddedProperties(users, samples, n);
    assert p == users + p[|users|..];
    assert multiset(p) == multiset(users) + multiset(p[|users|..]);
  }

  /** The sidebar always shows exactly 5 entries, sorted by achievements;
      entries left off rank no higher; it shows every real user when there
      are at most 5, and the samples only fill the gap. */
  lemma SidebarBoardProperties(users: seq<SidebarEntry>)
    ensures var s := SortBy(SidebarPadded(users), MoreAchievements);
            var r := SidebarBoard(users);
            |r| == 5 && SortedBy(r, MoreAchievements) &&
            multiset(s) == multiset(SidebarPadded(users)) && r == s[..5] &&
            (forall i, j :: 0 <= i < 5 <= j < |s| ==> r[i].achievements >= s[j].achievements) &&
            (|users| <= 5 ==> multiset(users) <= multiset(r))
  {
    MoreAchievementsTotal();
    PaddedProperties(users, SidebarSamples, 5);
    TopOfSorted(SidebarPadded(users), 5, MoreAchievements);
    if |users| <= 5 {
      BoardShowsAll(users, SidebarSamples, 5, 5, MoreAchievements);
    }
  }

  /** The full leaderboard shows 10 entries whenever there is a real user
      (the nine samples alone otherwise) and its sidebar is its first 5
      entries. */
  lemma LeaderBoardSize(users: seq<LeaderEntry>)
    ensures var r := LeaderBoard(users);
            |r| == (if |users| == 0 then 9 else 10) && LeaderSidebar(users) == r[..5]
  {
    assert |LeaderSamples| == 9;
    PaddedProperties(users, LeaderSamples, 10);
  }

  /** Every real user is on the full leaderboard when there are at most 10. */
  lemma LeaderBoardShowsAll(users: seq<LeaderEntry>)
    ensures |users| <= 10 ==> multiset(users) <= multiset(LeaderBoard(users))
  {
    if |users| <= 10 {
      BoardShowsAll(users, LeaderSamples, 10, 10, RanksAbove);
    }
  }

  /** The full leaderboard is sorted by achievements and then completed
      habits, is a prefix of a permutation of the padded users, and entries
      left off rank no higher than any shown. */
  lemma LeaderBoardOrder(users: seq<LeaderEntry>)
    ensures var s := LeaderSorted(users);
            var r := LeaderBoard(users);
            SortedBy(r, RanksAbove) &&
            multiset(s) == multiset(LeaderPadded(users)) && r == s[..|r|] &&
            forall i, j :: 0 <= i < |r| <= j < |s| ==> RanksAbove(r[i], s[j])
  {
    RanksAboveTotal();
    TopOfSorted(LeaderPadded(users), 10, RanksAbove);
  }
}
