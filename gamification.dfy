/** The achievement grant loop, the achievements page percentage and the
    digital-twin comparison (app/gamification/routes.py). */
module Gamification {
  import opened Text
  import opened Lists
  import opened Numerics
  import opened Models
  import opened Criteria

  // ---------------------------------------------------------------------
  // check_achievements

  function Ids(s: seq<Achievement>): set<int>
  {
    set i | 0 <= i < |s| :: s[i].id
  }

  /** The outcome for one definition: Err when its threshold int() rejects,
      otherwise whether its criterion is met. */
  function Check(x: Achievement, a: Activity): Result<bool>
  {
    match ParseCriteria(x.criteria)
    case Err(e) => Err(e)
    case Ok(c) => Ok(Earned(c, a))
  }

  /** The grant loop over the definitions in query order, for a per-definition
      outcome `check`: every definition not yet granted is checked and, if
      met, appended; the first failing check aborts the whole call. */
  function Grants(defs: seq<Achievement>, granted: set<int>, check: Achievement -> Result<bool>): Result<seq<Achievement>>
  {
    if defs == [] then Ok([])
    else
      var last := defs[|defs| - 1];
      match Grants(defs[..|defs| - 1], granted, check)
      case Err(e) => Err(e)
      case Ok(prev) =>
        if last.id in granted then Ok(prev)
        else
          match check(last)
          case Err(e) => Err(e)
          case Ok(met) => if met then Ok(prev + [last]) else Ok(prev)
  }

  /** What check_achievements returns for the user's activity. */
  function NewlyEarned(defs: seq<Achievement>, granted: set<int>, a: Activity): Result<seq<Achievement>>
  {
    Grants(defs, granted, (x: Achievement) => Check(x, a))
  }

  /** The user's achievement rows, as a set of achievement ids. */
  class GrantStore {
    var granted: set<int>

    constructor(initial: set<int>)
      ensures granted == initial
    {
      granted := initial;
    }

    /** check_achievements: the loop over all definitions, adding one grant
        row per newly earned achievement; the rows are committed only when
        the loop finishes. */
    method CheckAchievements(defs: seq<Achievement>, a: Activity) returns (r: Result<seq<Achievement>>)
      modifies this
      ensures r == NewlyEarned(defs, old(granted), a)
      ensures r.Ok? ==> granted == old(granted) + Ids(r.value)
      ensures r.Err? ==> granted == old(granted)
    {
      var earnedIds := granted;
      var newlyEarned: seq<Achievement> := [];
      var i := 0;
      while i < |defs|
        invariant 0 <= i <= |defs|
        invariant earnedIds == granted == old(granted)
        invariant NewlyEarned(defs[..i], earnedIds, a) == Ok(newlyEarned)
      {
        var achievement := defs[i];
        var outcome := CheckOne(achievement, a);
        NewlyEarnedStep(defs, i, earnedIds, a);
        if achievement.id !in earnedIds {
          if outcome.Err? {
            NewlyEarnedErrPersists(defs, i + 1, earnedIds, a);
            return Err(outcome.error);
          }
          if outcome.value {
            newlyEarned := newlyEarned + [achievement];
          }
        }
        i := i + 1;
      }
      assert defs[..|defs|] == defs;
      granted := granted + Ids(newlyEarned);
      r := Ok(newlyEarned);
    }
  }

  /** The body of the loop for one definition: split and parse the criteria,
      then evaluate them. */
  method CheckOne(x: Achievement, a: Activity) returns (r: Result<bool>)
    ensures r == Check(x, a)
  {
    var parsed := ParseCriteria(x.criteria);
    if parsed.Err? {
      return Err(parsed.error);
    }
    var earned := Evaluate(parsed.value, a);
    r := Ok(earned);
  }

  /** One more definition: what the loop does with it. */
  lemma NewlyEarnedStep(defs: seq<Achievement>, i: int, granted: set<int>, a: Activity)
    requires 0 <= i < |defs| && NewlyEarned(defs[..i], granted, a).Ok?
    ensures var prev := NewlyEarned(defs[..i], granted, a).value;
            var x := defs[i];
            NewlyEarned(defs[..i + 1], granted, a) ==
              if x.id in granted then Ok(prev)
              else match Check(x, a)
                   case Err(e) => Err(e)
                   case Ok(met) => if met then Ok(prev + [x]) else Ok(prev)
  {
    assert defs[..i + 1][..i] == defs[..i];
  }

  /** Once a prefix of the definitions aborts, the whole call aborts with
      the same error. */
  lemma {:induction false} ErrPersists(defs: seq<Achievement>, k: int, granted: set<int>, check: Achievement -> Result<bool>)
    requires 0 <= k <= |defs| && Grants(defs[..k], granted, check).Err?
    ensures Grants(defs, granted, check) == Grants(defs[..k], granted, check)
    decreases |defs| - k
  {
    if k < |defs| {
      assert defs[..k + 1][..k] == defs[..k];
      ErrPersists(defs, k + 1, granted, check);
    } else {
      assert defs[..k] == defs;
    }
  }

  lemma NewlyEarnedErrPersists(defs: seq<Achievement>, k: int, granted: set<int>, a: Activity)
    requires 0 <= k <= |defs| && NewlyEarned(defs[..k], granted, a).Err?
    ensures NewlyEarned(defs, granted, a) == NewlyEarned(defs[..k], granted, a)
  {
    ErrPersists(defs, k, granted, (x: Achievement) => Check(x, a));
  }

  lemma {:induction false} GrantsExact(defs: seq<Achievement>, granted: set<int>, check: Achievement -> Result<bool>)
    requires Grants(defs, granted, check).Ok?
    ensures var n := Grants(defs, granted, check).value;
            forall x :: x in n <==> x in defs && x.id !in granted && check(x) == Ok(true)
  {
    if defs != [] {
      var init := defs[..|defs| - 1];
      GrantsExact(init, granted, check);
      assert defs == init + [defs[|defs| - 1]];
    }
  }

  lemma {:induction false} GrantsFail(defs: seq<Achievement>, granted: set<int>, check: Achievement -> Result<bool>)
    ensures Grants(defs, granted, check).Err? <==>
            exists j :: 0 <= j < |defs| && defs[j].id !in granted && check(defs[j]).Err?
  {
    if defs != [] {
      var init := defs[..|defs| - 1];
      var last := |defs| - 1;
      GrantsFail(init, granted, check);
      assert forall j :: 0 <= j < |init| ==> init[j] == defs[j];
      if Grants(defs, granted, check).Err? && Grants(init, granted, check).Ok? {
        assert defs[last].id !in granted && check(defs[last]).Err?;
      }
    }
  }

  lemma {:induction false} GrantsAgain(defs: seq<Achievement>, granted: set<int>, check: Achievement -> Result<bool>, after: set<int>)
    requires Grants(defs, granted, check).Ok?
    requires granted <= after
    requires forall x :: x in defs && x.id !in granted && check(x) == Ok(true) ==> x.id in after
    ensures Grants(defs, after, check) == Ok([])
  {
    if defs != [] {
      var init := defs[..|defs| - 1];
      assert forall x :: x in init ==> x in defs;
      GrantsAgain(init, granted, check, after);
    }
  }

  /** The achievement's criteria parse and check_achievements finds them met. */
  predicate EarnedBy(x: Achievement, a: Activity)
  {
    var p := ParseCriteria(x.criteria);
    p.Ok? && Earned(p.value, a)
  }

  /** Every newly earned achievement is a definition that was not yet
      granted and whose criteria are met, and, conversely, every definition
      not yet granted whose criteria are met is newly earned. */
  lemma NewlyEarnedExact(defs: seq<Achievement>, granted: set<int>, a: Activity)
    requires NewlyEarned(defs, granted, a).Ok?
    ensures var n := NewlyEarned(defs, granted, a).value;
            forall x :: x in n <==> x in defs && x.id !in granted && EarnedBy(x, a)
  {
    GrantsExact(defs, granted, (x: Achievement) => Check(x, a));
  }

  /** The call aborts exactly when some definition not yet granted has a
      threshold int() rejects; definitions already granted are never parsed. */
  lemma NewlyEarnedFails(defs: seq<Achievement>, granted: set<int>, a: Activity)
    ensures NewlyEarned(defs, granted, a).Err? <==>
            exists j :: 0 <= j < |defs| && defs[j].id !in granted && ParseCriteria(defs[j].criteria).Err?
  {
    GrantsFail(defs, granted, (x: Achievement) => Check(x, a));
  }

  /** No achievement is granted twice: the new grants are disjoint from the
      old ones, and a second call on the same data, after the grants, finds
      nothing new. */
  lemma NoDoubleGrant(defs: seq<Achievement>, granted: set<int>, a: Activity)
    requires NewlyEarned(defs, granted, a).Ok?
    ensures var n := NewlyEarned(defs, granted, a).value;
            Ids(n) !! granted && NewlyEarned(defs, granted + Ids(n), a) == Ok([])
  {
    var check := (x: Achievement) => Check(x, a);
    var n := Grants(defs, granted, check).value;
    GrantsExact(defs, granted, check);
    forall x | x in defs && x.id !in granted && check(x) == Ok(true) ensures x.id in granted + Ids(n) {
      var i :| 0 <= i < |n| && n[i] == x;
    }
    GrantsAgain(defs, granted, check, granted + Ids(n));
  }

  // ---------------------------------------------------------------------
  // The achievements page

  /** `int(len(user_achievements) / len(all_achievements) * 100)`, 0 with
      no definitions. */
  function AchievementPercentage(earned: int, total: int): int
  {
    if total > 0 then Trunc(earned as real / total as real * 100.0) else 0
  }

  lemma AchievementPercentageBounds(earned: int, total: int)
    requires 0 <= earned <= total
    ensures 0 <= AchievementPercentage(earned, total) <= 100
    ensures AchievementPercentage(earned, total) == 100 <==> total > 0 && earned == total
  {
    if total > 0 {
      PercentBounds(earned, total);
      var p := Percent(earned, total);
      assert p == earned as real / total as real * 100.0;
      TruncMonotone(0.0, p);
      TruncMonotone(p, 100.0);
      if earned < total {
        assert earned as real / total as real * total as real == earned as real;
        assert earned as real / total as real < 1.0;
      }
    }
  }

  // ---------------------------------------------------------------------
  // The digital-twin page

  datatype Winner = UserWins | TwinWins | Tie

  /** `"user" if u > t else "twin" if t > u else "tie"` */
  function Compare(user: real, twin: real): Winner
  {
    if user > twin then UserWins else if twin > user then TwinWins else Tie
  }

  /** The larger figure wins, equal figures tie, and swapping the two
      swaps the winner. */
  lemma CompareMeaning(user: real, twin: real)
    ensures Compare(user, twin) == UserWins <==> user > twin
    ensures Compare(user, twin) == TwinWins <==> twin > user
    ensures Compare(user, twin) == Tie <==> user == twin
    ensures Compare(twin, user) == (match Compare(user, twin)
                                    case UserWins => TwinWins
                                    case TwinWins => UserWins
                                    case Tie => Tie)
  {
  }

  /** One habit's row on the twin page: streak and completion winners;
      the twin's stored rate is a fraction, the user's a percentage. */
  datatype Comparison = Comparison(streakWinner: Winner, completionWinner: Winner)

  function CompareHabit(h: Habit, logs: seq<HabitLog>, twin: DigitalTwin): Comparison
  {
    Comparison(
      Compare(HabitStreak(h.id, logs) as real, twin.streak as real),
      Compare(CompletionRate(h.id, logs), twin.completionRate * 100.0))
  }

  /** A habit with no completed log never beats its twin on either figure
      when the twin's figures are non-negative. */
  lemma IdleHabitNeverWins(h: Habit, logs: seq<HabitLog>, twin: DigitalTwin)
    requires forall i :: 0 <= i < |logs| ==> !(logs[i].habitId == h.id && logs[i].completed)
    requires twin.streak >= 0 && twin.completionRate >= 0.0
    ensures CompareHabit(h, logs, twin).streakWinner != UserWins
    ensures CompareHabit(h, logs, twin).completionWinner != UserWins
  {
    HabitStreakBounds(h.id, logs);
    CompletionRateBounds(h.id, logs);
  }
}
