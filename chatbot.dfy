/** The chatbot of app/chatbot/routes.py: the ordered keyword dispatch of
    a message to a handler, and the analytics behind the handlers (the
    weekly summary, the habit to focus on, the screen-time summary, the
    streak list, the advice for one habit, the new-habit suggestion and the
    sidebar statistics). The reply texts are modelled by what they report;
    random choices are parameters. */
module Chatbot {
  import opened Text
  import opened Lists
  import opened Numerics
  import opened Tally
  import opened Sorting
  import opened Models

  // ---------------------------------------------------------------------
  // process_message

  /** The handler that answers a message. */
  datatype Reply =
    | Greet
    | AdviseOn(habit: Habit)
    | Summarize
    | SuggestFocus
    | Challenge
    | TrackingSummary
    | ScreenTimeInfo
    | AchievementInfo
    | SuggestHabit
    | Motivate
    | StreakInfo
    | Help
    | Thanks
    | PromptSetup
    | PromptGeneral

  const GreetingWords: seq<string> :=
    ["hello", "hi", "hey", "greetings", "good morning", "good afternoon", "good evening"]
  const SummaryWords: seq<string> :=
    ["how did i do", "this week", "my progress", "summary", "how am i doing"]
  const FocusWords: seq<string> :=
    ["what habit", "focus on", "prioritize", "which habit", "what should i focus"]
  const ChallengeWords: seq<string> :=
    ["challenge", "give me a challenge", "challenge for today", "task"]
  const TrackingWords: seq<string> :=
    ["show my", "last 7 days", "habit tracking", "progress", "how am i doing"]
  const ScreenWords: seq<string> :=
    ["screen time", "digital usage", "app usage", "phone usage", "screen addiction"]
  const AchievementWords: seq<string> :=
    ["achievement", "badge", "trophy", "earned", "rewards", "points"]
  const SuggestionWords: seq<string> :=
    ["suggest", "recommend", "new habit", "habit idea", "what should i try"]
  const MotivationWords: seq<string> :=
    ["motivate", "motivation", "inspire", "feeling lazy", "don't feel like", "procrastinating"]
  const StreakWords: seq<string> :=
    ["streak", "consecutive", "in a row", "chain"]
  const HelpWords: seq<string> :=
    ["help", "how to use", "what can you do", "capabilities", "features"]
  const ThanksWords: seq<string> :=
    ["thank", "thanks", "appreciate", "grateful"]

  /** The keyword groups after the habit names, in the order they are tried,
      each with the handler it selects. */
  const KeywordRules: seq<(seq<string>, Reply)> := [
    (SummaryWords, Summarize), (FocusWords, SuggestFocus), (ChallengeWords, Challenge),
    (TrackingWords, TrackingSummary), (ScreenWords, ScreenTimeInfo),
    (AchievementWords, AchievementInfo), (SuggestionWords, SuggestHabit),
    (MotivationWords, Motivate), (StreakWords, StreakInfo), (HelpWords, Help),
    (ThanksWords, Thanks)]

  /** `message.lower().strip()` */
  function Normalize(message: string): string
  {
    Strip(Lower(message))
  }

  function NameIn(msg: string): Habit -> bool
  {
    (h: Habit) => Contains(msg, Lower(h.name))
  }

  function NamedLike(name: string): Habit -> bool
  {
    (h: Habit) => Lower(h.name) == name
  }

  /** The loop over the lowercased habit names: the first name occurring in
      the message, looked up again with `next(h for h in habits if
      h.name.lower() == habit_name)`. */
  function MentionedHabit(habits: seq<Habit>, msg: string): (r: Option<Habit>)
  {
    var i := FirstIndex(habits, NameIn(msg));
    if i == -1 then None
    else
      var j := FirstIndex(habits, NamedLike(Lower(habits[i].name)));
      if j == -1 then None else Some(habits[j])
  }

  /** The lookup by name finds the very habit whose name matched first, so
      the habit advised on is the first habit whose lowercased name occurs
      in the message, and there is one exactly when some name occurs. */
  lemma MentionedHabitIsFirst(habits: seq<Habit>, msg: string)
    ensures var k := FirstIndex(habits, NameIn(msg));
            MentionedHabit(habits, msg) == if k == -1 then None else Some(habits[k])
    ensures MentionedHabit(habits, msg).None? <==>
            forall i :: 0 <= i < |habits| ==> !Contains(msg, Lower(habits[i].name))
  {
    var i := FirstIndex(habits, NameIn(msg));
    if i != -1 {
      var name := Lower(habits[i].name);
      assert NamedLike(name)(habits[i]);
      forall j | 0 <= j < |habits| && NamedLike(name)(habits[j])
        ensures NameIn(msg)(habits[j])
      {
        assert Lower(habits[j].name) == name;
      }
      FirstIndexNarrowed(habits, NameIn(msg), NamedLike(name));
    }
  }

  /** The handler process_message chooses: a greeting word anywhere wins,
      then a habit name, then the keyword groups in order, then the default
      reply (the set-up prompt without habits, otherwise one of the general
      prompts chosen at random). */
  function Respond(message: string, habits: seq<Habit>): Reply
  {
    Dispatch(Normalize(message), habits)
  }

  /** The chain of checks on the normalised message. */
  function Dispatch(msg: string, habits: seq<Habit>): Reply
  {
    if ContainsAny(msg, GreetingWords) then Greet
    else match MentionedHabit(habits, msg)
      case Some(h) => AdviseOn(h)
      case None => KeywordReply(msg, habits)
  }

  /** The keyword checks after the habit names, and the default reply (the
      set-up prompt without habits, otherwise one of the general prompts
      chosen at random). */
  function KeywordReply(msg: string, habits: seq<Habit>): Reply
  {
    if ContainsAny(msg, SummaryWords) then Summarize
    else if ContainsAny(msg, FocusWords) then SuggestFocus
    else if ContainsAny(msg, ChallengeWords) then Challenge
    else if ContainsAny(msg, TrackingWords) then TrackingSummary
    else if ContainsAny(msg, ScreenWords) then ScreenTimeInfo
    else if ContainsAny(msg, AchievementWords) then AchievementInfo
    else if ContainsAny(msg, SuggestionWords) then SuggestHabit
    else if ContainsAny(msg, MotivationWords) then Motivate
    else if ContainsAny(msg, StreakWords) then StreakInfo
    else if ContainsAny(msg, HelpWords) then Help
    else if ContainsAny(msg, ThanksWords) then Thanks
    else if |habits| == 0 then PromptSetup
    else PromptGeneral
  }

  function RuleMatches(msg: string): ((seq<string>, Reply)) -> bool
  {
    (rule: (seq<string>, Reply)) => ContainsAny(msg, rule.0)
  }

  /** The reply of the first rule with a word in the message, or the
      fallback when no rule matches. */
  function FirstRule(rules: seq<(seq<string>, Reply)>, msg: string, fallback: Reply): Reply
  {
    if |rules| == 0 then fallback
    else if ContainsAny(msg, rules[0].0) then rules[0].1
    else FirstRule(rules[1..], msg, fallback)
  }

  /** One rule in front: its reply when it matches, the rest otherwise. */
  lemma FirstRuleCons(rule: (seq<string>, Reply), rest: seq<(seq<string>, Reply)>, msg: string, fallback: Reply)
    ensures FirstRule([rule] + rest, msg, fallback) ==
            if ContainsAny(msg, rule.0) then rule.1 else FirstRule(rest, msg, fallback)
  {
    assert ([rule] + rest)[1..] == rest;
  }

  /** The reply FirstRule gives is the reply of the first rule that matches. */
  lemma {:induction false} FirstRuleIsFirstMatch(rules: seq<(seq<string>, Reply)>, msg: string, fallback: Reply)
    ensures var k := FirstIndex(rules, RuleMatches(msg));
            FirstRule(rules, msg, fallback) == if k == -1 then fallback else rules[k].1
  {
    if |rules| > 0 {
      FirstRuleIsFirstMatch(rules[1..], msg, fallback);
      if !RuleMatches(msg)(rules[0]) {
        assert forall j :: 0 <= j < |rules| - 1 ==> rules[1..][j] == rules[j + 1];
      }
    }
  }

  /** The dispatch read off the rule table: the first keyword group with a
      word in the message. */
  function ByRules(msg: string, habits: seq<Habit>): Reply
  {
    if ContainsAny(msg, GreetingWords) then Greet
    else match MentionedHabit(habits, msg)
      case Some(h) => AdviseOn(h)
      case None => FirstRule(KeywordRules, msg, if |habits| == 0 then PromptSetup else PromptGeneral)
  }

  /** process_message is the first-match-wins reading of the rule table:
      the greeting, then the habit names, then the first keyword group with
      a word in the message, then the default. */
  lemma DispatchFollowsRules(msg: string, habits: seq<Habit>)
    ensures Dispatch(msg, habits) == ByRules(msg, habits)
    ensures !ContainsAny(msg, GreetingWords) && MentionedHabit(habits, msg).None? ==>
              var k := FirstIndex(KeywordRules, RuleMatches(msg));
              Dispatch(msg, habits) == if k == -1 then (if |habits| == 0 then PromptSetup else PromptGeneral) else KeywordRules[k].1
  {
    var d := if |habits| == 0 then PromptSetup else PromptGeneral;
    FirstRuleIsFirstMatch(KeywordRules, msg, d);
    KeywordsFollowRules(msg, habits);
  }

  /** The keyword chain is the rule table read one rule at a time. */
  lemma KeywordsFollowRules(msg: string, habits: seq<Habit>)
    ensures KeywordReply(msg, habits) == FirstRule(KeywordRules, msg, if |habits| == 0 then PromptSetup else PromptGeneral)
  {
    var d := if |habits| == 0 then PromptSetup else PromptGeneral;
    var t11: seq<(seq<string>, Reply)> := [];
    var t10 := [(ThanksWords, Thanks)] + t11;
    var t9 := [(HelpWords, Help)] + t10;
    var t8 := [(StreakWords, StreakInfo)] + t9;
    var t7 := [(MotivationWords, Motivate)] + t8;
    var t6 := [(SuggestionWords, SuggestHabit)] + t7;
    var t5 := [(AchievementWords, AchievementInfo)] + t6;
    var t4 := [(ScreenWords, ScreenTimeInfo)] + t5;
    var t3 := [(TrackingWords, TrackingSummary)] + t4;
    var t2 := [(ChallengeWords, Challenge)] + t3;
    var t1 := [(FocusWords, SuggestFocus)] + t2;
    var t0 := [(SummaryWords, Summarize)] + t1;
    assert KeywordRules == t0;
    FirstRuleCons((SummaryWords, Summarize), t1, msg, d);
    FirstRuleCons((FocusWords, SuggestFocus), t2, msg, d);
    FirstRuleCons((ChallengeWords, Challenge), t3, msg, d);
    FirstRuleCons((TrackingWords, TrackingSummary), t4, msg, d);
    FirstRuleCons((ScreenWords, ScreenTimeInfo), t5, msg, d);
    FirstRuleCons((AchievementWords, AchievementInfo), t6, msg, d);
    FirstRuleCons((SuggestionWords, SuggestHabit), t7, msg, d);
    FirstRuleCons((MotivationWords, Motivate), t8, msg, d);
    FirstRuleCons((StreakWords, StreakInfo), t9, msg, d);
    FirstRuleCons((HelpWords, Help), t10, msg, d);
    FirstRuleCons((ThanksWords, Thanks), t11, msg, d);
  }

  /** Greeting words first: every message with a greeting word anywhere in
      it gets the greeting. */
  lemma GreetingFirst(message: string, habits: seq<Habit>)
    requires ContainsAny(Normalize(message), GreetingWords)
    ensures Respond(message, habits) == Greet
  {
  }

  /** Every message containing "this" gets the greeting, because "hi" occurs
      inside "this"; so the summary phrase "this week" never reaches the
      weekly summary. */
  lemma HiInsideThis(message: string, habits: seq<Habit>)
    requires Contains(Normalize(message), "this")
    ensures Respond(message, habits) == Greet
  {
    var msg := Normalize(message);
    HiInThis(msg);
    GreetingFirst(message, habits);
  }

  lemma HiInThis(msg: string)
    requires Contains(msg, "this")
    ensures ContainsAny(msg, GreetingWords)
  {
    var i :| 0 <= i <= |msg| - 4 && MatchAt(msg, "this", i);
    var w := msg[i..i + 4];
    assert w == "this";
    assert w[1] == 'h' && w[2] == 'i';
    assert msg[i + 1..i + 3] == "hi";
    assert MatchAt(msg, GreetingWords[1], i + 1);
  }

  /** "how am i doing" is in two groups; the summary group comes first, so
      the tracking summary is never chosen for it. */
  lemma HowAmIDoingIsSummary(message: string, habits: seq<Habit>)
    requires Contains(Normalize(message), "how am i doing")
    ensures Respond(message, habits) in {Greet, Summarize} || Respond(message, habits).AdviseOn?
  {
    assert SummaryWords[4] == "how am i doing";
  }

  // ---------------------------------------------------------------------
  // get_weekly_summary

  datatype Quality = Excellent | Good | Fair | Challenging

  /** The quality word for a completion rate in percent. */
  function QualityOf(rate: real): Quality
  {
    if rate >= 80.0 then Excellent
    else if rate >= 60.0 then Good
    else if rate >= 40.0 then Fair
    else Challenging
  }

  /** What the weekly summary reports: the two early replies, or the quality
      word, the counts, the rate and the longest streak with its habit (None
      when the streak sentence is left out). */
  datatype WeekSummary =
    | NoHabitsCreated
    | NothingLogged
    | WeekSummary(quality: Quality, completed: nat, total: nat, rate: real, longest: Option<(string, int)>)

  /** The user's logs dated `since` or later. */
  function UserLogsSince(logs: seq<HabitLog>, userId: int, since: int): seq<HabitLog>
  {
    Filter(logs, (l: HabitLog) => l.userId == userId && l.date >= since)
  }

  function StreakOf(logs: seq<HabitLog>): Habit -> int
  {
    (h: Habit) => HabitStreak(h.id, logs)
  }

  function AnyHabit(): Habit -> bool
  {
    (h: Habit) => true
  }

  /** The summary get_weekly_summary gives for the user's habits. */
  function WeeklySummaryOf(habits: seq<Habit>, logs: seq<HabitLog>, userId: int, today: int): WeekSummary
  {
    if |habits| == 0 then NoHabitsCreated
    else
      var week := UserLogsSince(logs, userId, today - 7);
      if |week| == 0 then NothingLogged
      else
        var c := CompletedCount(week);
        var rate := Percent(c, |week|);
        var p := PickIndex(habits, AnyHabit(), StreakOf(logs));
        WeekSummary(QualityOf(rate), c, |week|, rate,
                    if p == -1 then None else Some((habits[p].name, HabitStreak(habits[p].id, logs))))
  }

  /** The route's computation, with its longest-streak loop. */
  method WeeklySummary(habits: seq<Habit>, logs: seq<HabitLog>, userId: int, today: int) returns (r: WeekSummary)
    ensures r == WeeklySummaryOf(habits, logs, userId, today)
  {
    if |habits| == 0 {
      return NoHabitsCreated;
    }
    var week := UserLogsSince(logs, userId, today - 7);
    var completed := CompletedCount(week);
    var total := |week|;
    if total == 0 {
      return NothingLogged;
    }
    var rate := (completed as real / total as real) * 100.0;
    var longest, streakHabit := LongestStreak(habits, logs);
    var shown := if streakHabit.Some? && longest > 0 then Some((streakHabit.value.name, longest)) else None;
    assert rate == Percent(completed, total);
    ghost var p := PickIndex(habits, AnyHabit(), StreakOf(logs));
    assert shown == if p == -1 then None else Some((habits[p].name, HabitStreak(habits[p].id, logs)));
    r := WeekSummary(QualityOf(rate), completed, total, rate, shown);
  }

  /** The longest-streak loop: a habit replaces the pick only with a
      strictly longer streak, starting from 0 and no habit. */
  method LongestStreak(habits: seq<Habit>, logs: seq<HabitLog>) returns (longest: int, streakHabit: Option<Habit>)
    ensures var p := PickIndex(habits, AnyHabit(), StreakOf(logs));
            (p == -1 ==> longest == 0 && streakHabit == None) &&
            (p >= 0 ==> streakHabit == Some(habits[p]) && longest == HabitStreak(habits[p].id, logs) && longest > 0)
  {
    longest := 0;
    streakHabit := None;
    ghost var pick := -1;
    var i := 0;
    while i < |habits|
      invariant 0 <= i <= |habits|
      invariant pick == PickIndex(habits[..i], AnyHabit(), StreakOf(logs))
      invariant pick == -1 ==> longest == 0 && streakHabit == None
      invariant pick >= 0 ==> streakHabit == Some(habits[pick]) && longest == HabitStreak(habits[pick].id, logs) && longest > 0
    {
      assert habits[..i + 1][..i] == habits[..i];
      assert pick >= 0 ==> habits[..i][pick] == habits[pick];
      var streak := HabitStreak(habits[i].id, logs);
      if streak > longest {
        longest := streak;
        streakHabit := Some(habits[i]);
        pick := i;
      }
      i := i + 1;
    }
    assert habits[..|habits|] == habits;
  }

  /** The bands in whole numbers: a rate of c out of t is at least 80% when
      5c >= 4t, at least 60% when 5c >= 3t and at least 40% when 5c >= 2t. */
  lemma QualityBands(c: nat, t: nat)
    requires 0 < t && c <= t
    ensures QualityOf(Percent(c, t)) == Excellent <==> 5 * c >= 4 * t
    ensures QualityOf(Percent(c, t)) == Good <==> 3 * t <= 5 * c < 4 * t
    ensures QualityOf(Percent(c, t)) == Fair <==> 2 * t <= 5 * c < 3 * t
    ensures QualityOf(Percent(c, t)) == Challenging <==> 5 * c < 2 * t
  {
    QuotientBelow(c as real, t as real, 0.8);
    QuotientBelow(c as real, t as real, 0.6);
    QuotientBelow(c as real, t as real, 0.4);
  }

  /** The weekly summary: no habits and no logs this week give the two
      fixed replies; otherwise the rate lies in [0, 100] and its quality
      band is decided by the counts alone. */
  lemma WeeklySummaryMeaning(habits: seq<Habit>, logs: seq<HabitLog>, userId: int, today: int)
    ensures var r := WeeklySummaryOf(habits, logs, userId, today);
            (r == NoHabitsCreated <==> |habits| == 0) &&
            (r == NothingLogged <==>
               |habits| > 0 && forall i :: 0 <= i < |logs| ==> !(logs[i].userId == userId && logs[i].date >= today - 7))
    ensures var r := WeeklySummaryOf(habits, logs, userId, today);
            r.WeekSummary? ==>
              0 < r.total && r.completed <= r.total && 0.0 <= r.rate <= 100.0 &&
              (r.quality == Excellent <==> 5 * r.completed >= 4 * r.total) &&
              (r.quality == Good <==> 3 * r.total <= 5 * r.completed < 4 * r.total) &&
              (r.quality == Fair <==> 2 * r.total <= 5 * r.completed < 3 * r.total) &&
              (r.quality == Challenging <==> 5 * r.completed < 2 * r.total)
  {
    var week := UserLogsSince(logs, userId, today - 7);
    if |habits| > 0 && |week| > 0 {
      PercentBounds(CompletedCount(week), |week|);
      QualityBands(CompletedCount(week), |week|);
    }
  }

  /** The habit named in the streak sentence is the first habit with the
      largest current streak, and the sentence is left out exactly when
      every streak is 0. */
  lemma WeeklyStreakHabit(habits: seq<Habit>, logs: seq<HabitLog>, userId: int, today: int)
    ensures var r := WeeklySummaryOf(habits, logs, userId, today);
            r.WeekSummary? ==>
              (r.longest == None <==> forall i :: 0 <= i < |habits| ==> HabitStreak(habits[i].id, logs) == 0) &&
              (r.longest.Some? ==>
                 exists i :: 0 <= i < |habits| && r.longest.value == (habits[i].name, HabitStreak(habits[i].id, logs)) &&
                   HabitStreak(habits[i].id, logs) > 0 &&
                   (forall j :: 0 <= j < |habits| ==> HabitStreak(habits[j].id, logs) <= HabitStreak(habits[i].id, logs)) &&
                   (forall j :: 0 <= j < i ==> HabitStreak(habits[j].id, logs) < HabitStreak(habits[i].id, logs)))
  {
    PickIndexMeaning(habits, AnyHabit(), StreakOf(logs));
  }

  // ---------------------------------------------------------------------
  // get_habit_focus

  /** The early reply without habits, a habit chosen at random when no
      habit has logs, or the habit with the lowest completion fraction. */
  datatype Focus = NoHabitsToFocus | NotYetLogged(habit: Habit) | LowestRate(habit: Habit, rate: real)

  /** `sum(1 for log in logs if log.completed) / len(logs)` over all logs of
      the habit, 0 when it has none. */
  function Fraction(habitId: int, logs: seq<HabitLog>): real
  {
    var mine := LogsOf(habitId, logs);
    if |mine| == 0 then 0.0 else CompletedCount(mine) as real / |mine| as real
  }

  lemma FractionBounds(habitId: int, logs: seq<HabitLog>)
    ensures 0.0 <= Fraction(habitId, logs) <= 1.0
  {
    var mine := LogsOf(habitId, logs);
    if |mine| > 0 {
      PercentBounds(CompletedCount(mine), |mine|);
    }
  }

  function HasLogs(logs: seq<HabitLog>): Habit -> bool
  {
    (h: Habit) => |LogsOf(h.id, logs)| > 0
  }

  function FractionOf(logs: seq<HabitLog>): Habit -> real
  {
    (h: Habit) => Fraction(h.id, logs)
  }

  /** habit_stats: every habit with logs paired with its fraction, in the
      order of the habits. */
  function FocusStats(habits: seq<Habit>, logs: seq<HabitLog>): seq<(Habit, real)>
  {
    FilterMap(habits, HasLogs(logs), FractionOf(logs))
  }

  /** The ascending order of `sort(key=lambda x: x[1])`. */
  predicate LowerRate(a: (Habit, real), b: (Habit, real)) { a.1 <= b.1 }

  lemma LowerRateTotal()
    ensures TotalPreorder(LowerRate)
  {
  }

  /** The answer of get_habit_focus; `pick` stands for the random choice. */
  function HabitFocusOf(habits: seq<Habit>, logs: seq<HabitLog>, pick: nat): Focus
  {
    if |habits| == 0 then NoHabitsToFocus
    else
      var stats := FocusStats(habits, logs);
      if |stats| == 0 then NotYetLogged(habits[pick % |habits|])
      else
        var best := SortBy(stats, LowerRate)[0];
        LowestRate(best.0, best.1)
  }

  /** The route's computation, with its habit_stats loop and the stable sort. */
  method HabitFocus(habits: seq<Habit>, logs: seq<HabitLog>, pick: nat) returns (r: Focus)
    ensures r == HabitFocusOf(habits, logs, pick)
  {
    if |habits| == 0 {
      return NoHabitsToFocus;
    }
    var stats: seq<(Habit, real)> := [];
    var i := 0;
    while i < |habits|
      invariant 0 <= i <= |habits|
      invariant stats == FocusStats(habits[..i], logs)
    {
      FilterMapStep(habits, HasLogs(logs), FractionOf(logs), i);
      var habitLogs := LogsOf(habits[i].id, logs);
      if |habitLogs| > 0 {
        stats := stats + [(habits[i], CompletedCount(habitLogs) as real / |habitLogs| as real)];
      }
      i := i + 1;
    }
    assert habits[..|habits|] == habits;
    if |stats| == 0 {
      return NotYetLogged(habits[pick % |habits|]);
    }
    var sorted := SortBy(stats, LowerRate);
    r := LowestRate(sorted[0].0, sorted[0].1);
  }

  /** Without habits the fixed reply; a random habit exactly when no habit
      has any log. */
  lemma HabitFocusCases(habits: seq<Habit>, logs: seq<HabitLog>, pick: nat)
    ensures var r := HabitFocusOf(habits, logs, pick);
            (r == NoHabitsToFocus <==> |habits| == 0) &&
            (r.NotYetLogged? <==> |habits| > 0 && forall i :: 0 <= i < |habits| ==> |LogsOf(habits[i].id, logs)| == 0) &&
            (r.NotYetLogged? ==> r.habit in habits)
  {
    var stats := FocusStats(habits, logs);
    FilterMapEntries(habits, HasLogs(logs), FractionOf(logs));
    FilterMapComplete(habits, HasLogs(logs), FractionOf(logs));
    if |habits| > 0 && |stats| == 0 {
      assert forall i :: 0 <= i < |habits| ==> |LogsOf(habits[i].id, logs)| == 0;
    }
    if |habits| > 0 && |stats| > 0 {
      assert stats[0].0 in habits;
      var i :| 0 <= i < |habits| && habits[i] == stats[0].0;
      assert |LogsOf(habits[i].id, logs)| > 0;
    }
  }

  /** The habit to focus on is a habit with logs whose fraction is the
      lowest of all habits with logs. */
  lemma HabitFocusLowest(habits: seq<Habit>, logs: seq<HabitLog>, pick: nat)
    ensures var r := HabitFocusOf(habits, logs, pick);
            r.LowestRate? ==>
              r.habit in habits && |LogsOf(r.habit.id, logs)| > 0 &&
              r.rate == Fraction(r.habit.id, logs) && 0.0 <= r.rate <= 1.0 &&
              forall i :: 0 <= i < |habits| && |LogsOf(habits[i].id, logs)| > 0 ==> r.rate <= Fraction(habits[i].id, logs)
  {
    var stats := FocusStats(habits, logs);
    if |habits| > 0 && |stats| > 0 {
      FilterMapEntries(habits, HasLogs(logs), FractionOf(logs));
      FilterMapComplete(habits, HasLogs(logs), FractionOf(logs));
      LowerRateTotal();
      SortHeadIsFirstBest(stats, LowerRate);
      FirstBestIsFirstMaximum(stats, LowerRate);
      var k := FirstBest(stats, LowerRate);
      FractionBounds(stats[k].0.id, logs);
      forall i | 0 <= i < |habits| && |LogsOf(habits[i].id, logs)| > 0
        ensures stats[k].1 <= Fraction(habits[i].id, logs)
      {
        var j :| 0 <= j < |stats| && stats[j] == (habits[i], Fraction(habits[i].id, logs));
        assert LowerRate(stats[k], stats[j]);
      }
    }
  }

  /** Ties go to the first habit, in habit order, with the lowest
      fraction: every entry before it has a higher one. */
  lemma HabitFocusFirstLowest(habits: seq<Habit>, logs: seq<HabitLog>, pick: nat)
    ensures var r := HabitFocusOf(habits, logs, pick);
            var stats := FocusStats(habits, logs);
            r.LowestRate? ==>
              exists k :: 0 <= k < |stats| && stats[k] == (r.habit, r.rate) && forall j :: 0 <= j < k ==> stats[j].1 > r.rate
  {
    var stats := FocusStats(habits, logs);
    if |habits| > 0 && |stats| > 0 {
      LowerRateTotal();
      SortHeadIsFirstBest(stats, LowerRate);
      FirstBestIsFirstMaximum(stats, LowerRate);
    }
  }

  // ---------------------------------------------------------------------
  // get_screen_time_summary

  datatype Duration = Duration(hours: int, minutes: int)

  function InMinutes(d: Duration): int
  {
    d.hours * 60 + d.minutes
  }

  /** `total // 60` hours and `total % 60` minutes (Python's floor division
      and Dafny's agree for the positive divisor 60). */
  function HoursAndMinutes(total: int): (d: Duration)
    ensures InMinutes(d) == total && 0 <= d.minutes < 60
  {
    Duration(total / 60, total % 60)
  }

  /** The split is the only one with minutes in 0..59. */
  lemma HoursAndMinutesUnique(total: int, d: Duration)
    requires InMinutes(d) == total && 0 <= d.minutes < 60
    ensures d == HoursAndMinutes(total)
  {
    var e := HoursAndMinutes(total);
    assert (d.hours - e.hours) * 60 == e.minutes - d.minutes;
  }

  /** The early reply without recent logs, or the total time and the top 3
      apps with their times. */
  datatype ScreenSummary = NoRecentScreenTime | ScreenSummary(total: Duration, topApps: seq<(string, Duration)>)

  /** The user's screen-time logs dated `since` or later. */
  function RecentScreenLogs(logs: seq<ScreenTimeLog>, userId: int, since: int): seq<ScreenTimeLog>
  {
    Filter(logs, (l: ScreenTimeLog) => l.userId == userId && l.date >= since)
  }

  function AppDuration(): ((string, int)) -> (string, Duration)
  {
    (a: (string, int)) => (a.0, HoursAndMinutes(a.1))
  }

  function ScreenSummaryOf(screenLogs: seq<ScreenTimeLog>, userId: int, today: int): ScreenSummary
  {
    var recent := RecentScreenLogs(screenLogs, userId, today - 7);
    if |recent| == 0 then NoRecentScreenTime
    else ScreenSummary(HoursAndMinutes(TotalMinutes(recent)), Map(TopApps(recent, 3), AppDuration()))
  }

  /** The route's computation, with its app_usage loop. */
  method ScreenTimeSummary(screenLogs: seq<ScreenTimeLog>, userId: int, today: int) returns (r: ScreenSummary)
    ensures r == ScreenSummaryOf(screenLogs, userId, today)
  {
    var recent := RecentScreenLogs(screenLogs, userId, today - 7);
    if |recent| == 0 {
      return NoRecentScreenTime;
    }
    var total := TotalMinutes(recent);
    var appUsage := Build(AppEntries(recent));
    var topApps := Take(SortBy(appUsage, MoreMinutes), 3);
    r := ScreenSummary(HoursAndMinutes(total), Map(topApps, AppDuration()));
  }

  /** The screen-time summary: without recent logs the fixed reply;
      otherwise the total splits into hours and minutes, and at most three
      apps are listed, each with its own summed time, in descending order
      of time, and no app left off has more time than one listed. */
  lemma ScreenSummaryMeaning(screenLogs: seq<ScreenTimeLog>, userId: int, today: int)
    ensures var r := ScreenSummaryOf(screenLogs, userId, today);
            r == NoRecentScreenTime <==>
              forall i :: 0 <= i < |screenLogs| ==> !(screenLogs[i].userId == userId && screenLogs[i].date >= today - 7)
    ensures var r := ScreenSummaryOf(screenLogs, userId, today);
            var recent := RecentScreenLogs(screenLogs, userId, today - 7);
            var e := AppEntries(recent);
            r.ScreenSummary? ==>
              InMinutes(r.total) == TotalMinutes(recent) && 0 <= r.total.minutes < 60 &&
              |r.topApps| == Min(3, |Keys(e)|) &&
              (forall i :: 0 <= i < |r.topApps| ==>
                 r.topApps[i].0 in Keys(e) && InMinutes(r.topApps[i].1) == SumFor(e, r.topApps[i].0) &&
                 0 <= r.topApps[i].1.minutes < 60) &&
              (forall i, j :: 0 <= i < j < |r.topApps| ==> InMinutes(r.topApps[i].1) >= InMinutes(r.topApps[j].1)) &&
              (forall k, i :: k in Keys(e) && k !in Keys(r.topApps) && 0 <= i < |r.topApps| ==>
                 SumFor(e, k) <= InMinutes(r.topApps[i].1))
  {
    var recent := RecentScreenLogs(screenLogs, userId, today - 7);
    if |recent| > 0 {
      TopAppsProperties(recent, 3);
      AppDurations(TopApps(recent, 3));
    }
  }

  /** Each app keeps its name and its time, split into hours and minutes. */
  lemma AppDurations(apps: seq<(string, int)>)
    ensures var shown := Map(apps, AppDuration());
            |shown| == |apps| && Keys(shown) == Keys(apps) &&
            forall i :: 0 <= i < |apps| ==>
              shown[i].0 == apps[i].0 && InMinutes(shown[i].1) == apps[i].1 && 0 <= shown[i].1.minutes < 60
  {
    var shown := Map(apps, AppDuration());
    assert forall i :: 0 <= i < |apps| ==> shown[i].0 == apps[i].0;
  }

  // ---------------------------------------------------------------------
  // get_streak_information

  /** One line of the streak list. */
  datatype StreakLine = NoActiveStreak(name: string) | OneDay(name: string) | Days(name: string, days: int)

  datatype StreakReport = NoHabitsSetUp | StreakLines(lines: seq<StreakLine>)

  /** The streak a line reports. */
  function DaysOf(line: StreakLine): int
  {
    match line
    case NoActiveStreak(_) => 0
    case OneDay(_) => 1
    case Days(_, d) => d
  }

  /** The line for one (name, streak) entry: "No active streak" for 0,
      "1 day" for 1, otherwise the number of days. */
  function LineOf(entry: (string, int)): (line: StreakLine)
    ensures line.name == entry.0 && DaysOf(line) == entry.1
    ensures line.NoActiveStreak? <==> entry.1 == 0
    ensures line.OneDay? <==> entry.1 == 1
  {
    if entry.1 == 0 then NoActiveStreak(entry.0)
    else if entry.1 == 1 then OneDay(entry.0)
    else Days(entry.0, entry.1)
  }

  function NameAndStreak(logs: seq<HabitLog>): Habit -> (string, int)
  {
    (h: Habit) => (h.name, HabitStreak(h.id, logs))
  }

  /** The descending order of `sort(key=lambda x: x[1], reverse=True)`. */
  predicate LongerStreak(a: (string, int), b: (string, int)) { a.1 >= b.1 }

  lemma LongerStreakTotal()
    ensures TotalPreorder(LongerStreak)
  {
  }

  function StreakReportOf(habits: seq<Habit>, logs: seq<HabitLog>): StreakReport
  {
    if |habits| == 0 then NoHabitsSetUp
    else StreakLines(Map(SortBy(Map(habits, NameAndStreak(logs)), LongerStreak), LineOf))
  }

  /** The route's computation, with its streak_info loop and the stable sort. */
  method StreakInformation(habits: seq<Habit>, logs: seq<HabitLog>) returns (r: StreakReport)
    ensures r == StreakReportOf(habits, logs)
  {
    if |habits| == 0 {
      return NoHabitsSetUp;
    }
    var info: seq<(string, int)> := [];
    var i := 0;
    while i < |habits|
      invariant 0 <= i <= |habits|
      invariant |info| == i
      invariant forall k :: 0 <= k < i ==> info[k] == (habits[k].name, HabitStreak(habits[k].id, logs))
    {
      info := info + [(habits[i].name, HabitStreak(habits[i].id, logs))];
      i := i + 1;
    }
    assert info == Map(habits, NameAndStreak(logs));
    info := SortBy(info, LongerStreak);
    r := StreakLines(Map(info, LineOf));
  }

  /** The line of habit i of the list. */
  function HabitLine(habits: seq<Habit>, logs: seq<HabitLog>, i: int): StreakLine
    requires 0 <= i < |habits|
  {
    LineOf((habits[i].name, HabitStreak(habits[i].id, logs)))
  }

  /** The streak list has one line per habit and the lines run from the
      longest streak down; the fixed reply comes exactly without habits. */
  lemma StreakReportOrder(habits: seq<Habit>, logs: seq<HabitLog>)
    ensures var r := StreakReportOf(habits, logs);
            (r == NoHabitsSetUp <==> |habits| == 0) &&
            (r.StreakLines? ==>
               |r.lines| == |habits| &&
               forall i, j :: 0 <= i < j < |r.lines| ==> DaysOf(r.lines[i]) >= DaysOf(r.lines[j]))
  {
    if |habits| > 0 {
      var pairs := Map(habits, NameAndStreak(logs));
      var sorted := SortBy(pairs, LongerStreak);
      LongerStreakTotal();
      SortBySorted(pairs, LongerStreak);
      assert forall i, j :: 0 <= i < j < |sorted| ==> LongerStreak(sorted[i], sorted[j]);
    }
  }

  /** Each habit's line appears in the streak list and every line is some
      habit's. */
  lemma StreakReportLines(habits: seq<Habit>, logs: seq<HabitLog>)
    ensures var r := StreakReportOf(habits, logs);
            r.StreakLines? ==>
              (forall i :: 0 <= i < |habits| ==> HabitLine(habits, logs, i) in r.lines) &&
              (forall k :: 0 <= k < |r.lines| ==> exists i :: 0 <= i < |habits| && r.lines[k] == HabitLine(habits, logs, i))
  {
    if |habits| > 0 {
      var pairs := Map(habits, NameAndStreak(logs));
      var sorted := SortBy(pairs, LongerStreak);
      var lines := Map(sorted, LineOf);
      forall i | 0 <= i < |habits|
        ensures HabitLine(habits, logs, i) in lines
      {
        assert pairs[i] in multiset(sorted);
        var k :| 0 <= k < |sorted| && sorted[k] == pairs[i];
        assert lines[k] == LineOf(pairs[i]);
      }
      forall k | 0 <= k < |lines|
        ensures exists i :: 0 <= i < |habits| && lines[k] == HabitLine(habits, logs, i)
      {
        assert sorted[k] in multiset(pairs);
        var i :| 0 <= i < |pairs| && pairs[i] == sorted[k];
        assert lines[k] == HabitLine(habits, logs, i);
      }
    }
  }

  /** The names on the lines that show d days, in list order. */
  function NamesWithDays(lines: seq<StreakLine>, d: int): seq<string>
  {
    if lines == [] then []
    else (if DaysOf(lines[0]) == d then [lines[0].name] else []) + NamesWithDays(lines[1..], d)
  }

  /** The names of the habits whose current streak is d, in habit order. */
  function HabitNamesWithStreak(habits: seq<Habit>, logs: seq<HabitLog>, d: int): seq<string>
  {
    if habits == [] then []
    else (if HabitStreak(habits[0].id, logs) == d then [habits[0].name] else []) + HabitNamesWithStreak(habits[1..], logs, d)
  }

  /** The names of (name, streak) entries. */
  function EntryNames(entries: seq<(string, int)>): seq<string>
  {
    if entries == [] then [] else [entries[0].0] + EntryNames(entries[1..])
  }

  /** The lines of entries showing d days name the entries level with a
      streak of d. */
  lemma {:induction false} LinesLevelWith(entries: seq<(string, int)>, d: int)
    ensures NamesWithDays(Map(entries, LineOf), d) == EntryNames(LevelWith(entries, ("", d), LongerStreak))
  {
    if entries != [] {
      LinesLevelWith(entries[1..], d);
      var lines := Map(entries, LineOf);
      assert lines[1..] == Map(entries[1..], LineOf);
      var level := LevelWith(entries, ("", d), LongerStreak);
      var rest := LevelWith(entries[1..], ("", d), LongerStreak);
      if entries[0].1 == d {
        assert level == [entries[0]] + rest;
        assert level[1..] == rest;
      } else {
        assert level == rest;
      }
    }
  }

  /** The entries of the habits level with a streak of d are the habits
      whose streak is d. */
  lemma {:induction false} HabitsLevelWith(habits: seq<Habit>, logs: seq<HabitLog>, d: int)
    ensures EntryNames(LevelWith(Map(habits, NameAndStreak(logs)), ("", d), LongerStreak)) == HabitNamesWithStreak(habits, logs, d)
  {
    if habits != [] {
      HabitsLevelWith(habits[1..], logs, d);
      var entries := Map(habits, NameAndStreak(logs));
      assert entries[1..] == Map(habits[1..], NameAndStreak(logs));
      var level := LevelWith(entries, ("", d), LongerStreak);
      var rest := LevelWith(entries[1..], ("", d), LongerStreak);
      if HabitStreak(habits[0].id, logs) == d {
        assert level == [entries[0]] + rest;
        assert level[1..] == rest;
      } else {
        assert level == rest;
      }
    }
  }

  /** The sort is stable: the habits with the same streak are listed in
      the order of the habits. */
  lemma StreakReportStable(habits: seq<Habit>, logs: seq<HabitLog>, d: int)
    ensures var r := StreakReportOf(habits, logs);
            r.StreakLines? ==> NamesWithDays(r.lines, d) == HabitNamesWithStreak(habits, logs, d)
  {
    if |habits| > 0 {
      var entries := Map(habits, NameAndStreak(logs));
      var sorted := SortBy(entries, LongerStreak);
      LongerStreakTotal();
      LinesLevelWith(sorted, d);
      SortByStable(entries, ("", d), LongerStreak);
      HabitsLevelWith(habits, logs, d);
    }
  }

  // ---------------------------------------------------------------------
  // get_habit_specific_advice

  datatype AdviceBand = DoingGreat | MakingProgress | HavingChallenges

  datatype Tip = ScheduleExercise | ReadBeforeBed | ShortMeditation | KeepWaterVisible | LinkToRoutine

  /** What the advice for one habit says: its 30-day rate, the band, the
      current streak, whether the streak sentence praises it, and the tip. */
  datatype Advice = Advice(habitName: string, rate: int, band: AdviceBand, streak: int, streakPraised: bool, tip: Tip)

  const ExerciseWords: seq<string> := ["exercise", "workout", "run"]
  const ReadingWords: seq<string> := ["read", "book"]
  const MeditationTipWords: seq<string> := ["meditate", "mindfulness"]
  const WaterWords: seq<string> := ["water", "hydrate"]

  function BandOf(rate: int): AdviceBand
  {
    if rate >= 80 then DoingGreat else if rate >= 50 then MakingProgress else HavingChallenges
  }

  /** The streak length above which each band's praising sentence is used. */
  function PraiseAbove(band: AdviceBand): int
  {
    match band
    case DoingGreat => 7
    case MakingProgress => 3
    case HavingChallenges => 0
  }

  /** The tip for the first tip group with a word in the lowercased name. */
  function TipFor(name: string): Tip
  {
    var n := Lower(name);
    if ContainsAny(n, ExerciseWords) then ScheduleExercise
    else if ContainsAny(n, ReadingWords) then ReadBeforeBed
    else if ContainsAny(n, MeditationTipWords) then ShortMeditation
    else if ContainsAny(n, WaterWords) then KeepWaterVisible
    else LinkToRoutine
  }

  /** The habit's logs dated today - 30 or later. */
  function AdviceLogs(habitId: int, logs: seq<HabitLog>, today: int): seq<HabitLog>
  {
    Filter(logs, (l: HabitLog) => l.habitId == habitId && l.date >= today - 30)
  }

  function AdviceFor(h: Habit, logs: seq<HabitLog>, today: int): Advice
  {
    var rate := RoundedRate(AdviceLogs(h.id, logs, today));
    var band := BandOf(rate);
    var streak := HabitStreak(h.id, logs);
    Advice(h.name, rate, band, streak, streak > PraiseAbove(band), TipFor(h.name))
  }

  /** The advice: the 30-day rate lies in [0, 100] and picks the band at 80
      and 50; a habit with every recent log completed is doing great and one
      with none completed is having challenges; a praised streak is at
      least 1 day, and in the lowest band the streak is praised exactly when
      the habit has some completed log. */
  lemma AdviceMeaning(h: Habit, logs: seq<HabitLog>, today: int)
    ensures var a := AdviceFor(h, logs, today);
            var window := AdviceLogs(h.id, logs, today);
            0 <= a.rate <= 100 &&
            (a.band == DoingGreat <==> a.rate >= 80) &&
            (a.band == MakingProgress <==> 50 <= a.rate < 80) &&
            (a.band == HavingChallenges <==> a.rate < 50) &&
            (|window| > 0 && CompletedCount(window) == |window| ==> a.band == DoingGreat) &&
            (CompletedCount(window) == 0 ==> a.band == HavingChallenges) &&
            (a.streakPraised ==> a.streak >= 1) &&
            (a.band == HavingChallenges ==>
               (a.streakPraised <==> exists i :: 0 <= i < |logs| && logs[i].habitId == h.id && logs[i].completed))
  {
    RoundedRateBounds(AdviceLogs(h.id, logs, today));
    HabitStreakBounds(h.id, logs);
  }

  // ---------------------------------------------------------------------
  // get_habit_suggestion

  const HealthHabits: seq<string> :=
    ["Daily exercise", "Drink 8 glasses of water", "Take vitamins", "Meditate for 10 minutes"]
  const ProductivityHabits: seq<string> :=
    ["Read for 30 minutes", "Learn something new", "Plan your day", "No phone first hour"]
  const WellbeingHabits: seq<string> :=
    ["Gratitude journaling", "Call a friend", "Spend time outdoors", "Practice mindfulness"]

  /** The hobby keywords in dict order, each with its related habits. */
  const HobbyHabits: seq<(string, seq<string>)> := [
    ("read", ["Read for 30 minutes", "Read before bed"]),
    ("exercise", ["Daily exercise", "Morning workout", "10,000 steps"]),
    ("music", ["Practice instrument", "Listen to new music"]),
    ("art", ["Draw or sketch", "Visit art gallery monthly"]),
    ("nature", ["Spend time outdoors", "Gardening", "Hiking"])]

  /** The early reply when every common habit is tracked, a habit matching
      the user's hobbies, or a common habit. */
  datatype Suggestion = TrackingEnough | InterestBased(habit: string) | General(habit: string)

  function Untracked(names: seq<string>): string -> bool
  {
    (s: string) => Lower(s) !in names
  }

  /** The untracked related habits of the first hobby keyword in the
      hobbies text that has any; empty when there is none. */
  function InterestMatches(rules: seq<(string, seq<string>)>, hobbies: string, names: seq<string>): (r: seq<string>)
    ensures forall s :: s in r ==> Lower(s) !in names
    ensures |r| > 0 ==> exists k :: 0 <= k < |rules| && Contains(hobbies, rules[k].0) && forall s :: s in r ==> s in rules[k].1
    ensures |r| == 0 <==> forall k :: 0 <= k < |rules| && Contains(hobbies, rules[k].0) ==> |Filter(rules[k].1, Untracked(names))| == 0
  {
    if |rules| == 0 then []
    else
      var matching := Filter(rules[0].1, Untracked(names));
      assert forall k :: 1 <= k < |rules| ==> rules[k] == rules[1..][k - 1];
      if Contains(hobbies, rules[0].0) && |matching| > 0 then matching
      else InterestMatches(rules[1..], hobbies, names)
  }

  /** The common habits, health first, then productivity, then wellbeing. */
  const CommonHabits: seq<string> := HealthHabits + ProductivityHabits + WellbeingHabits

  /** The suggestion drawn from the given common habits and hobby rules. */
  function SuggestionAmong(common: seq<string>, rules: seq<(string, seq<string>)>,
                           habits: seq<Habit>, hobbies: Option<string>, pick: nat): Suggestion
  {
    var names := LowerNames(habits);
    var available := Filter(common, Untracked(names));
    if |available| == 0 then TrackingEnough
    else
      var matching := if hobbies.Some? && |hobbies.value| > 0 then InterestMatches(rules, Lower(hobbies.value), names) else [];
      if |matching| > 0 then InterestBased(matching[pick % |matching|])
      else General(available[pick % |available|])
  }

  /** The answer of get_habit_suggestion for the user's habits and hobbies
      text; `pick` stands for the random choice. */
  function HabitSuggestionOf(habits: seq<Habit>, hobbies: Option<string>, pick: nat): Suggestion
  {
    SuggestionAmong(CommonHabits, HobbyHabits, habits, hobbies, pick)
  }

  /** A name whose lowercase form is not among the lowercased habit names
      differs from every habit's name under any capitalisation. */
  lemma NotAmongLowerNames(habits: seq<Habit>, s: string)
    requires Lower(s) !in LowerNames(habits)
    ensures forall i :: 0 <= i < |habits| ==> Lower(habits[i].name) != Lower(s)
  {
    var names := LowerNames(habits);
    assert forall i :: 0 <= i < |habits| ==> names[i] == Lower(habits[i].name);
  }

  /** The early reply comes exactly when every common habit is tracked. */
  lemma SuggestionAmongEarly(common: seq<string>, rules: seq<(string, seq<string>)>,
                             habits: seq<Habit>, hobbies: Option<string>, pick: nat)
    ensures SuggestionAmong(common, rules, habits, hobbies, pick) == TrackingEnough <==>
            forall i :: 0 <= i < |common| ==> Lower(common[i]) in LowerNames(habits)
  {
    var names := LowerNames(habits);
    var available := Filter(common, Untracked(names));
    if |available| == 0 {
      forall i | 0 <= i < |common|
        ensures Lower(common[i]) in names
      {
        assert common[i] !in available;
        assert !Untracked(names)(common[i]);
      }
    } else {
      assert Untracked(names)(available[0]);
    }
  }

  /** A suggestion is untracked; a general one is a common habit and an
      interest-based one is related to a hobby keyword in the hobbies text. */
  lemma SuggestionAmongPicks(common: seq<string>, rules: seq<(string, seq<string>)>,
                             habits: seq<Habit>, hobbies: Option<string>, pick: nat)
    ensures var r := SuggestionAmong(common, rules, habits, hobbies, pick);
            (!r.TrackingEnough? ==> Lower(r.habit) !in LowerNames(habits)) &&
            (r.General? ==> r.habit in common) &&
            (r.InterestBased? ==>
               hobbies.Some? &&
               exists k :: 0 <= k < |rules| && Contains(Lower(hobbies.value), rules[k].0) && r.habit in rules[k].1)
  {
    var names := LowerNames(habits);
    var available := Filter(common, Untracked(names));
    if |available| > 0 {
      assert Untracked(names)(available[pick % |available|]);
    }
  }

  /** A suggestion never names a habit the user already tracks under any
      capitalisation; a general one is a common habit, an interest-based
      one is related to a hobby keyword in the hobbies text; and the early
      reply comes exactly when every common habit is tracked. */
  lemma HabitSuggestionMeaning(habits: seq<Habit>, hobbies: Option<string>, pick: nat)
    ensures var r := HabitSuggestionOf(habits, hobbies, pick);
            (r == TrackingEnough <==> forall i :: 0 <= i < |CommonHabits| ==> Lower(CommonHabits[i]) in LowerNames(habits)) &&
            (!r.TrackingEnough? ==> forall i :: 0 <= i < |habits| ==> Lower(habits[i].name) != Lower(r.habit)) &&
            (r.General? ==> r.habit in CommonHabits) &&
            (r.InterestBased? ==>
               hobbies.Some? &&
               exists k :: 0 <= k < |HobbyHabits| && Contains(Lower(hobbies.value), HobbyHabits[k].0) && r.habit in HobbyHabits[k].1)
  {
    var r := HabitSuggestionOf(habits, hobbies, pick);
    SuggestionAmongEarly(CommonHabits, HobbyHabits, habits, hobbies, pick);
    SuggestionAmongPicks(CommonHabits, HobbyHabits, habits, hobbies, pick);
    if !r.TrackingEnough? {
      NotAmongLowerNames(habits, r.habit);
    }
  }

  // ---------------------------------------------------------------------
  // chatbot_page

  /** The sidebar's habit statistics. */
  datatype SidebarStats = SidebarStats(activeHabits: nat, completionRate: int, longestStreak: int)

  function SidebarStatsOf(habits: seq<Habit>, logs: seq<HabitLog>): SidebarStats
  {
    SidebarStats(|habits|, RoundedPercent(CompletedHabitLogs(habits, logs), HabitLogTotal(habits, logs)),
                 MaxOver(habits, StreakOf(logs)))
  }

  /** The route's loop over the habits. */
  method ChatbotStats(habits: seq<Habit>, logs: seq<HabitLog>) returns (s: SidebarStats)
    ensures s == SidebarStatsOf(habits, logs)
  {
    var totalLogs := 0;
    var completedLogs := 0;
    var longest := 0;
    var i := 0;
    while i < |habits|
      invariant 0 <= i <= |habits|
      invariant totalLogs == HabitLogTotal(habits[..i], logs)
      invariant completedLogs == CompletedHabitLogs(habits[..i], logs)
      invariant longest == MaxOver(habits[..i], StreakOf(logs))
    {
      HabitLogTotalsStep(habits, logs, i);
      MaxOverStep(habits, StreakOf(logs), i);
      totalLogs := totalLogs + LogCount(habits[i].id, logs);
      completedLogs := completedLogs + CompletedLogCount(habits[i].id, logs);
      var current := HabitStreak(habits[i].id, logs);
      if current > longest {
        longest := current;
      }
      i := i + 1;
    }
    assert habits[..|habits|] == habits;
    s := SidebarStats(|habits|, RoundedPercent(completedLogs, totalLogs), longest);
  }

  /** The sidebar: the rate over all logs of the user's habits lies in
      [0, 100], is 0 with no logs or none completed and 100 when every log
      is completed; the longest streak is the largest current streak, 0
      without habits. */
  lemma SidebarStatsMeaning(habits: seq<Habit>, logs: seq<HabitLog>)
    ensures var s := SidebarStatsOf(habits, logs);
            s.activeHabits == |habits| &&
            0 <= s.completionRate <= 100 &&
            (CompletedHabitLogs(habits, logs) == 0 ==> s.completionRate == 0) &&
            (HabitLogTotal(habits, logs) > 0 && HabitsAllCompleted(habits, logs) ==> s.completionRate == 100)
    ensures var s := SidebarStatsOf(habits, logs);
            s.longestStreak >= 0 &&
            (forall i :: 0 <= i < |habits| ==> HabitStreak(habits[i].id, logs) <= s.longestStreak) &&
            (s.longestStreak == 0 || exists i :: 0 <= i < |habits| && HabitStreak(habits[i].id, logs) == s.longestStreak)
  {
    CompletedWithinTotal(habits, logs);
    RoundedPercentBounds(CompletedHabitLogs(habits, logs), HabitLogTotal(habits, logs));
    MaxOverMeaning(habits, StreakOf(logs));
  }
}
