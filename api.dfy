/**
 * The service layer (src/services/api.ts): the records the client stores,
 * the partial updates `logPractice` and `updateStreak` write, and the three
 * analytics derivations computed on the client from fetched rows.
 * The record store itself is not modelled; callers pass in what it returned.
 */
module Api {
  import opened Wrappers
  import Text
  import Seqs

  /** A row of the `skills` table. */
  datatype Skill = Skill(
    id: string,
    name: string,
    progress: Option<int>,
    goalId: string,
    daysPracticed: Option<int>,
    lastPracticedDate: Option<string>,
    confidenceScore: Option<int>,
    lastConfidenceUpdate: Option<string>)

  /** A row of the `streaks` table (one per user). */
  datatype Streak = Streak(
    id: string,
    userId: string,
    currentStreak: Option<int>,
    longestStreak: Option<int>,
    lastActivityDate: Option<string>,
    isInRecovery: Option<bool>,
    missedDays: Option<int>)

  /** A row of the `learning_outcomes` table (a reflection). */
  datatype LearningOutcome = LearningOutcome(
    id: string,
    userId: string,
    skillId: string,
    clarityGain: int,
    confusionNote: Option<string>,
    difficultyFeeling: Option<string>,
    createdAt: string)

  /** `x || 0` on a nullable number: null and 0 both read as 0. */
  function OrZero(x: Option<int>): int {
    if x.Some? then x.value else 0
  }

  // ---------------------------------------------------------------- skills

  /** The partial row `logPractice` sends to the store. */
  datatype PracticeUpdate = PracticeUpdate(daysPracticed: int, lastPracticedDate: string)

  /** `skillService.logPractice(skillId, currentDays)` on the calendar day `today`: no same-day check. */
  function LogPractice(currentDays: int, today: string): (u: PracticeUpdate)
    ensures u.daysPracticed == currentDays + 1 && u.lastPracticedDate == today
  {
    PracticeUpdate(currentDays + 1, today)
  }

  /** The stored row after the store applied a practice update. */
  function ApplyPractice(s: Skill, u: PracticeUpdate): Skill {
    s.(daysPracticed := Some(u.daysPracticed), lastPracticedDate := Some(u.lastPracticedDate))
  }

  /**
   * Logging practice counts one more day and stamps today whatever the
   * previous date was, and leaves every other column as it was.
   */
  lemma LogPracticeEffect(s: Skill, today: string)
    ensures var t := ApplyPractice(s, LogPractice(OrZero(s.daysPracticed), today));
      && t.daysPracticed == Some(OrZero(s.daysPracticed) + 1)
      && t.lastPracticedDate == Some(today)
      && t.(daysPracticed := s.daysPracticed, lastPracticedDate := s.lastPracticedDate) == s
  {
  }

  /** Two logs on the same day count two days: there is no same-day guard. */
  lemma LogPracticeTwiceSameDay(s: Skill, today: string)
    ensures var once := ApplyPractice(s, LogPractice(OrZero(s.daysPracticed), today));
      var twice := ApplyPractice(once, LogPractice(OrZero(once.daysPracticed), today));
      twice.daysPracticed == Some(OrZero(s.daysPracticed) + 2) && twice.lastPracticedDate == Some(today)
  {
  }

  /** The partial row a confidence check-in writes. */
  datatype ConfidenceUpdate = ConfidenceUpdate(confidenceScore: int, lastConfidenceUpdate: string)

  function ApplyConfidence(s: Skill, u: ConfidenceUpdate): Skill {
    s.(confidenceScore := Some(u.confidenceScore), lastConfidenceUpdate := Some(u.lastConfidenceUpdate))
  }

  // ---------------------------------------------------------------- streaks

  /** The full set of columns a session completion writes to the streak row. */
  datatype StreakUpdate = StreakUpdate(
    currentStreak: int,
    longestStreak: int,
    lastActivityDate: string,
    isInRecovery: bool,
    missedDays: int)

  function ApplyStreak(s: Streak, u: StreakUpdate): Streak {
    s.(currentStreak := Some(u.currentStreak), longestStreak := Some(u.longestStreak),
       lastActivityDate := Some(u.lastActivityDate), isInRecovery := Some(u.isInRecovery),
       missedDays := Some(u.missedDays))
  }

  // ---------------------------------------------------------------- reflections

  /** The row `createReflection` inserts; absent optional arguments are stored as null. */
  datatype ReflectionInsert = ReflectionInsert(
    userId: string,
    skillId: string,
    clarityGain: int,
    confusionNote: Option<string>,
    difficultyFeeling: Option<string>)

  // ---------------------------------------------------------------- confidence history

  /** A point of the confidence curve. */
  datatype ConfidencePoint = ConfidencePoint(date: string, score: int, skillName: string)

  /** `created_at.split("T")[0]`: the calendar-date part of a timestamp. */
  function DatePart(timestamp: string): string {
    Text.BeforeFirst(timestamp, 'T')
  }

  /** `outcomes.filter(o => o.skill_id === id)`. */
  function OutcomesOf(outcomes: seq<LearningOutcome>, id: string): seq<LearningOutcome> {
    Seqs.Filter(outcomes, (o: LearningOutcome) => o.skillId == id)
  }

  /** The running score after a skill's outcomes: from 0, each outcome sets it to min(10, score + 2 * clarity). */
  function RunningScore(os: seq<LearningOutcome>): (r: int)
    ensures os != [] ==> r <= 10
  {
    if os == [] then 0
    else
      var prev := RunningScore(os[..|os| - 1]);
      if prev + 2 * os[|os| - 1].clarityGain < 10 then prev + 2 * os[|os| - 1].clarityGain else 10
  }

  /** With non-negative clarity gains the running score stays in 0..10 and never falls. */
  lemma {:induction false} RunningScoreMonotone(os: seq<LearningOutcome>, k: nat)
    requires k <= |os|
    requires forall j :: 0 <= j < |os| ==> os[j].clarityGain >= 0
    ensures 0 <= RunningScore(os[..k]) <= RunningScore(os) <= 10
    decreases |os|
  {
    if k < |os| {
      var p := os[..|os| - 1];
      assert os[..k] == p[..k];
      RunningScoreMonotone(p, k);
    } else {
      assert os[..k] == os;
      if os != [] {
        RunningScoreMonotone(os[..|os| - 1], |os| - 1);
      }
    }
  }

  /** One point per outcome, dated by the outcome, scored by the running score so far. */
  function OutcomeEntries(name: string, os: seq<LearningOutcome>): (r: seq<ConfidencePoint>)
    ensures |r| == |os|
    ensures forall k :: 0 <= k < |os| ==>
      r[k] == ConfidencePoint(DatePart(os[k].createdAt), RunningScore(os[..k + 1]), name)
  {
    if os == [] then []
    else
      var p := os[..|os| - 1];
      assert forall j :: 0 < j <= |p| ==> p[..j] == os[..j];
      assert os[..|os|] == os;
      OutcomeEntries(name, p) + [ConfidencePoint(DatePart(os[|os| - 1].createdAt), RunningScore(os), name)]
  }

  /** One more outcome of a prefix moves the running score by one step and adds one point. */
  lemma PrefixStep(name: string, os: seq<LearningOutcome>, j: nat)
    requires j < |os|
    ensures var prev := RunningScore(os[..j]);
      RunningScore(os[..j + 1]) == if prev + os[j].clarityGain * 2 < 10 then prev + os[j].clarityGain * 2 else 10
    ensures OutcomeEntries(name, os[..j + 1])
      == OutcomeEntries(name, os[..j]) + [ConfidencePoint(DatePart(os[j].createdAt), RunningScore(os[..j + 1]), name)]
  {
    assert os[..j + 1][..j] == os[..j];
  }

  /** `skill.confidence_score && skill.last_confidence_update`: both present and truthy. */
  predicate HasCurrentConfidence(s: Skill) {
    s.confidenceScore.Some? && s.confidenceScore.value != 0
    && s.lastConfidenceUpdate.Some? && s.lastConfidenceUpdate.value != ""
  }

  /** What one skill contributes: its outcome points, then its current confidence if it has one. */
  function SkillEntries(s: Skill, outcomes: seq<LearningOutcome>): seq<ConfidencePoint> {
    OutcomeEntries(s.name, OutcomesOf(outcomes, s.id))
    + (if HasCurrentConfidence(s)
       then [ConfidencePoint(s.lastConfidenceUpdate.value, s.confidenceScore.value, s.name)]
       else [])
  }

  /** Some skill in the list carries this name. */
  predicate NamedIn(name: string, skills: seq<Skill>) {
    exists k :: 0 <= k < |skills| && skills[k].name == name
  }

  /** A name carried by a skill of a prefix is carried by a skill of the whole list. */
  lemma NamedInPrefix(name: string, skills: seq<Skill>, n: nat)
    requires n <= |skills| && NamedIn(name, skills[..n])
    ensures NamedIn(name, skills)
  {
    var k :| 0 <= k < n && skills[..n][k].name == name;
    assert skills[k].name == name;
  }

  /** Every point a skill contributes carries that skill's name. */
  lemma SkillEntriesNamed(s: Skill, outcomes: seq<LearningOutcome>)
    ensures forall i :: 0 <= i < |SkillEntries(s, outcomes)| ==> SkillEntries(s, outcomes)[i].skillName == s.name
  {
  }

  /** The history in the order the nested loops push it, before sorting. */
  function BuildHistory(skills: seq<Skill>, outcomes: seq<LearningOutcome>): (r: seq<ConfidencePoint>)
    ensures forall i :: 0 <= i < |r| ==> NamedIn(r[i].skillName, skills)
  {
    if skills == [] then []
    else
      var n := |skills| - 1;
      var prefix := BuildHistory(skills[..n], outcomes);
      var own := SkillEntries(skills[n], outcomes);
      SkillEntriesNamed(skills[n], outcomes);
      assert NamedIn(skills[n].name, skills);
      assert forall i :: 0 <= i < |prefix| ==> NamedIn(prefix[i].skillName, skills) by {
        forall i | 0 <= i < |prefix| ensures NamedIn(prefix[i].skillName, skills) {
          NamedInPrefix(prefix[i].skillName, skills, n);
        }
      }
      prefix + own
  }

  /** The number of points the skills account for. */
  function EntryCount(skills: seq<Skill>, outcomes: seq<LearningOutcome>): nat {
    if skills == [] then 0
    else
      var s := skills[|skills| - 1];
      EntryCount(skills[..|skills| - 1], outcomes)
      + |OutcomesOf(outcomes, s.id)| + (if HasCurrentConfidence(s) then 1 else 0)
  }

  /** Each skill contributes one point per matching outcome plus one for a current confidence. */
  lemma {:induction false} HistoryLength(skills: seq<Skill>, outcomes: seq<LearningOutcome>)
    ensures |BuildHistory(skills, outcomes)| == EntryCount(skills, outcomes)
  {
    if skills != [] {
      HistoryLength(skills[..|skills| - 1], outcomes);
    }
  }

  /** An outcome whose skill is not in the list changes nothing. */
  lemma {:induction false} UnmatchedOutcomeIgnored(skills: seq<Skill>, outcomes: seq<LearningOutcome>, o: LearningOutcome)
    requires forall k :: 0 <= k < |skills| ==> skills[k].id != o.skillId
    ensures BuildHistory(skills, outcomes + [o]) == BuildHistory(skills, outcomes)
  {
    if skills != [] {
      var s := skills[|skills| - 1];
      assert (outcomes + [o])[..|outcomes|] == outcomes;
      assert OutcomesOf(outcomes + [o], s.id) == OutcomesOf(outcomes, s.id);
      UnmatchedOutcomeIgnored(skills[..|skills| - 1], outcomes, o);
    }
  }

  /** Every point is capped at 10 when the stored confidence scores are. */
  lemma {:induction false} HistoryScoresCapped(skills: seq<Skill>, outcomes: seq<LearningOutcome>)
    requires forall k :: 0 <= k < |skills| && skills[k].confidenceScore.Some? ==> skills[k].confidenceScore.value <= 10
    ensures forall p :: p in BuildHistory(skills, outcomes) ==> p.score <= 10
  {
    if skills != [] {
      HistoryScoresCapped(skills[..|skills| - 1], outcomes);
      var s := skills[|skills| - 1];
      var os := OutcomesOf(outcomes, s.id);
      var entries := OutcomeEntries(s.name, os);
      assert forall k :: 0 <= k < |entries| ==> entries[k].score <= 10;
    }
  }

  /** Points ordered by date. */
  predicate SortedByDate(s: seq<ConfidencePoint>) {
    forall i, j :: 0 <= i < j < |s| ==> Text.Leq(s[i].date, s[j].date)
  }

  /** Put `x` before the first point not dated earlier than it. */
  function InsertByDate(x: ConfidencePoint, s: seq<ConfidencePoint>): seq<ConfidencePoint> {
    if s == [] then [x]
    else if Text.Leq(x.date, s[0].date) then [x] + s
    else [s[0]] + InsertByDate(x, s[1..])
  }

  /** Inserting adds exactly `x` to the points. */
  lemma {:induction false} InsertByDatePermutes(x: ConfidencePoint, s: seq<ConfidencePoint>)
    ensures multiset(InsertByDate(x, s)) == multiset(s) + multiset{x}
  {
    if s != [] && !Text.Leq(x.date, s[0].date) {
      assert s == [s[0]] + s[1..];
      InsertByDatePermutes(x, s[1..]);
    }
  }

  /** Inserting into points ordered by date keeps them ordered. */
  lemma {:induction false} InsertByDateSorted(x: ConfidencePoint, s: seq<ConfidencePoint>)
    requires SortedByDate(s)
    ensures SortedByDate(InsertByDate(x, s))
  {
    if s == [] {
    } else if Text.Leq(x.date, s[0].date) {
      forall j | 0 <= j < |s| ensures Text.Leq(x.date, s[j].date) {
        if j > 0 { Text.LeqTransitive(x.date, s[0].date, s[j].date); }
      }
    } else {
      Text.LeqTotal(x.date, s[0].date);
      var t := s[1..];
      InsertByDateSorted(x, t);
      InsertByDatePermutes(x, t);
      var u := InsertByDate(x, t);
      forall j | 0 <= j < |u| ensures Text.Leq(s[0].date, u[j].date) {
        assert u[j] in multiset(t) + multiset{x};
        if u[j] != x {
          assert u[j] in t;
        }
      }
    }
  }

  /** `history.sort((a, b) => a.date.localeCompare(b.date))`, as a stable insertion sort: the same points, ordered by date. */
  function SortByDate(s: seq<ConfidencePoint>): (r: seq<ConfidencePoint>)
    ensures SortedByDate(r)
    ensures multiset(r) == multiset(s)
  {
    if s == [] then []
    else
      var rest := SortByDate(s[1..]);
      InsertByDateSorted(s[0], rest);
      InsertByDatePermutes(s[0], rest);
      assert s == [s[0]] + s[1..];
      InsertByDate(s[0], rest)
  }

  /**
   * `analyticsService.getConfidenceHistory`, after the two fetches: for each
   * skill, walk its outcomes with a running score, then add its current
   * confidence, then sort everything by date.
   */
  method GetConfidenceHistory(skills: seq<Skill>, outcomes: seq<LearningOutcome>)
    returns (history: seq<ConfidencePoint>)
    ensures history == SortByDate(BuildHistory(skills, outcomes))
  {
    var built: seq<ConfidencePoint> := [];
    var i := 0;
    while i < |skills|
      invariant 0 <= i <= |skills|
      invariant built == BuildHistory(skills[..i], outcomes)
    {
      var skill := skills[i];
      var points := SkillPoints(skill, outcomes);
      built := built + points;
      assert skills[..i + 1][..i] == skills[..i];
      i := i + 1;
    }
    assert skills[..i] == skills;
    history := SortByDate(built);
  }

  /** The inner loop of `getConfidenceHistory`: one point per outcome, with the capped running score. */
  method OutcomePoints(name: string, skillOutcomes: seq<LearningOutcome>) returns (points: seq<ConfidencePoint>)
    ensures points == OutcomeEntries(name, skillOutcomes)
  {
    var runningScore := 0;
    points := [];
    var j := 0;
    while j < |skillOutcomes|
      invariant 0 <= j <= |skillOutcomes|
      invariant runningScore == RunningScore(skillOutcomes[..j])
      invariant points == OutcomeEntries(name, skillOutcomes[..j])
    {
      var outcome := skillOutcomes[j];
      PrefixStep(name, skillOutcomes, j);
      runningScore := if runningScore + outcome.clarityGain * 2 < 10 then runningScore + outcome.clarityGain * 2 else 10;
      points := points + [ConfidencePoint(DatePart(outcome.createdAt), runningScore, name)];
      j := j + 1;
    }
    assert skillOutcomes[..j] == skillOutcomes;
  }

  /** The body of the outer loop of `getConfidenceHistory`, for one skill. */
  method SkillPoints(skill: Skill, outcomes: seq<LearningOutcome>) returns (points: seq<ConfidencePoint>)
    ensures points == SkillEntries(skill, outcomes)
  {
    points := OutcomePoints(skill.name, OutcomesOf(outcomes, skill.id));
    if HasCurrentConfidence(skill) {
      points := points + [ConfidencePoint(skill.lastConfidenceUpdate.value, skill.confidenceScore.value, skill.name)];
    }
  }

  // ---------------------------------------------------------------- streak history

  /** A bar of the streak chart; dates are day numbers. */
  datatype StreakPoint = StreakPoint(day: int, streak: int)

  /** How many bars a stored current streak yields: none for null, zero or a negative value. */
  function StreakHistoryLength(currentStreak: Option<int>): nat {
    if currentStreak.Some? && currentStreak.value > 0 then currentStreak.value else 0
  }

  /**
   * `analyticsService.getStreakHistory`: one bar per day of the current
   * streak, ending today, numbered 1..n.
   */
  method GetStreakHistory(currentStreak: Option<int>, today: int) returns (history: seq<StreakPoint>)
    ensures |history| == StreakHistoryLength(currentStreak)
    ensures forall k :: 0 <= k < |history| ==> history[k].streak == k + 1
    ensures forall k :: 0 <= k < |history| ==> history[k].day == today - (|history| - 1 - k)
  {
    history := [];
    if currentStreak.Some? && currentStreak.value != 0 {
      var n := currentStreak.value;
      var i := n - 1;
      while i >= 0
        invariant n < 1 ==> i == n - 1 && history == []
        invariant n >= 1 ==> -1 <= i <= n - 1 && |history| == n - 1 - i
        invariant forall k :: 0 <= k < |history| ==> history[k] == StreakPoint(today - (n - 1 - k), k + 1)
      {
        history := history + [StreakPoint(today - i, n - i)];
        i := i - 1;
      }
    }
  }

  // ---------------------------------------------------------------- time invested

  /** A slice of the time-invested chart. */
  datatype TimeInvested = TimeInvested(skill: string, minutes: int, days: int)

  /** `analyticsService.getTimeInvestedBySkill`: one slice per skill, in order, half an hour per practised day. */
  function TimeInvestedBySkill(skills: seq<Skill>): (r: seq<TimeInvested>)
    ensures |r| == |skills|
    ensures forall k :: 0 <= k < |r| ==>
      r[k].skill == skills[k].name && r[k].days == OrZero(skills[k].daysPracticed) && r[k].minutes == 30 * r[k].days
  {
    seq(|skills|, k requires 0 <= k < |skills| =>
      TimeInvested(skills[k].name, OrZero(skills[k].daysPracticed) * 30, OrZero(skills[k].daysPracticed)))
  }
}
