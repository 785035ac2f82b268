/**
 * The daily session page (src/pages/DailyPlan.tsx): the four-step plan
 * generated for the selected skill, the step machine that walks it, and
 * the "Complete Session" handler that logs practice, saves a reflection
 * and bumps the streak, in that order, against the record store.
 */
module DailyPlan {
  import opened Wrappers
  import Api
  import Seqs

  datatype StepKind = Concept | Task | Variation | Reflection

  /** One step of the generated plan. */
  datatype Experience = Experience(
    id: string,
    kind: StepKind,
    title: string,
    description: string,
    completed: bool,
    duration: int)

  /** The fixed wording of a step: its title and the text around the skill name. */
  datatype StepText = StepText(title: string, before: string, after: string)

  const ConceptText := StepText("Learn the Core Concept",
    "Spend 10 minutes reviewing key principles of ", ". Focus on understanding rather than memorizing.")
  const TaskText := StepText("Apply What You Learned",
    "Practice ", " with a hands-on exercise. Try to solve a small problem or build something simple.")
  const VariationText := StepText("Explore a Variation",
    "Look at ", " from a different angle. Watch a video, read an article, or try an alternative approach.")
  const ReflectionTitle := "Reflect & Consolidate"
  const ReflectionDescription := "Write down what you learned today. What clicked? What's still confusing?"

  /** A not-yet-completed step whose description names the skill. */
  function Step(id: string, kind: StepKind, t: StepText, skillName: string, duration: int): Experience {
    Experience(id, kind, t.title, t.before + skillName + t.after, false, duration)
  }

  /** The plan `selectSkill` generates for a skill: concept, task, variation, reflection. */
  function GeneratedSteps(skillName: string): (r: seq<Experience>)
    ensures |r| == 4 && r[0].kind == Concept && r[1].kind == Task && r[2].kind == Variation && r[3].kind == Reflection
    ensures forall k :: 0 <= k < 4 ==> !r[k].completed
  {
    [ Step("1", Concept, ConceptText, skillName, 10),
      Step("2", Task, TaskText, skillName, 15),
      Step("3", Variation, VariationText, skillName, 10),
      Experience("4", Reflection, ReflectionTitle, ReflectionDescription, false, 5) ]
  }

  predicate IsCompleted(e: Experience) {
    e.completed
  }

  /** `experiences.filter(e => e.completed).length`, the "n/4 completed" counter. */
  function CompletedCount(steps: seq<Experience>): (n: nat)
    ensures n <= |steps|
  {
    Seqs.Count(steps, IsCompleted)
  }

  /** `experiences.reduce((acc, e) => acc + e.duration, 0)`, the "~n min total". */
  function TotalDuration(steps: seq<Experience>): (total: int)
    ensures (forall k :: 0 <= k < |steps| ==> steps[k].duration >= 0) ==> total >= 0
  {
    var d := seq(|steps|, k requires 0 <= k < |steps| => steps[k].duration);
    Seqs.SumNonnegative(d);
    Seqs.Sum(d)
  }

  /** Every generated plan has four fresh steps of 10, 15, 10 and 5 minutes, forty in all. */
  lemma GeneratedStepsShape(skillName: string)
    ensures var p := GeneratedSteps(skillName);
      && |p| == 4
      && p[0].kind == Concept && p[1].kind == Task && p[2].kind == Variation && p[3].kind == Reflection
      && p[0].duration == 10 && p[1].duration == 15 && p[2].duration == 10 && p[3].duration == 5
      && CompletedCount(p) == 0
      && TotalDuration(p) == 40
  {
    var p := GeneratedSteps(skillName);
    var d := seq(|p|, k requires 0 <= k < |p| => p[k].duration);
    assert d == [10, 15, 10, 5];
    assert d[..3] == [10, 15, 10] && d[..3][..2] == [10, 15] && d[..3][..2][..1] == [10];
    assert Seqs.Sum([10]) == 10 by { assert [10][..0] == []; }
    assert Seqs.Sum(d[..3]) == 35;
    Seqs.FilterNone(p, IsCompleted);
  }

  /** The difficulty answered on the reflection step: one of the three buttons. */
  predicate IsDifficultyTag(f: string) {
    f == "too_easy" || f == "just_right" || f == "too_hard"
  }

  /** The clarity gain recorded for a session, read off the difficulty feedback. */
  function ClarityGain(feedback: Option<string>): (g: int)
    ensures 3 <= g <= 5
    ensures g == 5 <==> feedback == Some("too_easy")
    ensures g == 4 <==> feedback == Some("just_right")
  {
    if feedback == Some("too_easy") then 5
    else if feedback == Some("just_right") then 4
    else 3
  }

  function Max(a: int, b: int): int {
    if a >= b then a else b
  }

  /** The new current streak: unchanged (at least 1) on a second completion today, one more otherwise. */
  function NextCurrent(s: Api.Streak, today: string): (n: int)
    ensures s.lastActivityDate == Some(today) ==>
      (n == 1 <==> Api.OrZero(s.currentStreak) in {0, 1}) && (n != 1 ==> n == Api.OrZero(s.currentStreak))
    ensures s.lastActivityDate != Some(today) ==> n == Api.OrZero(s.currentStreak) + 1
  {
    if s.lastActivityDate == Some(today) then
      (if Api.OrZero(s.currentStreak) != 0 then Api.OrZero(s.currentStreak) else 1)
    else Api.OrZero(s.currentStreak) + 1
  }

  /**
   * The columns the finishing handler writes to an existing streak row.
   * Whatever the gap since the last activity, recovery is cleared and no
   * missed days are kept: nothing here detects missed days.
   */
  function NextStreak(s: Api.Streak, today: string): (u: Api.StreakUpdate)
    ensures u.longestStreak >= u.currentStreak
    ensures u.longestStreak >= Api.OrZero(s.longestStreak)
    ensures u.longestStreak == u.currentStreak || u.longestStreak == Api.OrZero(s.longestStreak)
    ensures u.lastActivityDate == today && !u.isInRecovery && u.missedDays == 0
  {
    var next := NextCurrent(s, today);
    Api.StreakUpdate(next, Max(next, Api.OrZero(s.longestStreak)), today, false, 0)
  }

  /** A completion on a new day counts one more day, null read as 0; a repeat today keeps the count, or starts it at 1. */
  lemma NextStreakCount(s: Api.Streak, today: string)
    ensures s.lastActivityDate != Some(today) ==>
      NextStreak(s, today).currentStreak == Api.OrZero(s.currentStreak) + 1
    ensures s.lastActivityDate == Some(today) && Api.OrZero(s.currentStreak) != 0 ==>
      NextStreak(s, today).currentStreak == Api.OrZero(s.currentStreak)
    ensures s.lastActivityDate == Some(today) && Api.OrZero(s.currentStreak) == 0 ==>
      NextStreak(s, today).currentStreak == 1
  {
  }

  /** The gap since the last activity is never looked at: any two earlier days give the same write. */
  lemma NextStreakIgnoresGap(s: Api.Streak, d1: Option<string>, d2: Option<string>, today: string)
    requires d1 != Some(today) && d2 != Some(today)
    ensures NextStreak(s.(lastActivityDate := d1), today) == NextStreak(s.(lastActivityDate := d2), today)
  {
  }

  /** A second completion on the same day rewrites the row it already has (for a non-negative count). */
  lemma {:induction false} SameDayIdempotent(s: Api.Streak, today: string)
    requires Api.OrZero(s.currentStreak) >= 0
    ensures var once := Api.ApplyStreak(s, NextStreak(s, today));
      Api.ApplyStreak(once, NextStreak(once, today)) == once
  {
    var once := Api.ApplyStreak(s, NextStreak(s, today));
    assert once.lastActivityDate == Some(today);
    assert Api.OrZero(once.currentStreak) >= 1;
  }

  /** The streak row after one completion on each of `days`, in order. */
  function CompleteOn(s: Api.Streak, days: seq<string>): Api.Streak
    decreases |days|
  {
    if days == [] then s
    else CompleteOn(Api.ApplyStreak(s, NextStreak(s, days[0])), days[1..])
  }

  /** After any run of completions the longest streak covers the current one and has not fallen. */
  lemma {:induction false} CompletionsKeepLongest(s: Api.Streak, days: seq<string>)
    requires days != []
    ensures var t := CompleteOn(s, days);
      && t.currentStreak.Some? && t.longestStreak.Some?
      && t.longestStreak.value >= t.currentStreak.value
      && t.longestStreak.value >= Api.OrZero(s.longestStreak)
      && t.lastActivityDate == Some(days[|days| - 1])
      && t.isInRecovery == Some(false) && t.missedDays == Some(0)
    decreases |days|
  {
    var next := Api.ApplyStreak(s, NextStreak(s, days[0]));
    if |days| > 1 {
      CompletionsKeepLongest(next, days[1..]);
    }
  }

  /** Each day differs from the one before it (and the first from the last recorded activity). */
  predicate FreshDays(last: Option<string>, days: seq<string>) {
    (days != [] ==> last != Some(days[0]))
    && forall k :: 0 < k < |days| ==> days[k] != days[k - 1]
  }

  /** Completions on a run of changing days add one per day to the current streak. */
  lemma {:induction false} FreshDaysCount(s: Api.Streak, days: seq<string>)
    requires FreshDays(s.lastActivityDate, days)
    ensures Api.OrZero(CompleteOn(s, days).currentStreak) == Api.OrZero(s.currentStreak) + |days|
    decreases |days|
  {
    if days != [] {
      var next := Api.ApplyStreak(s, NextStreak(s, days[0]));
      assert FreshDays(next.lastActivityDate, days[1..]) by {
        forall k | 0 < k < |days[1..]| ensures days[1..][k] != days[1..][k - 1] {
          assert days[1..][k] == days[k + 1];
        }
      }
      FreshDaysCount(next, days[1..]);
    }
  }

  /** A read or write the finishing handler issues to the record store, in order. */
  datatype StoreCall =
    | LogPracticeCall(skillId: string, practice: Api.PracticeUpdate)
    | CreateReflectionCall(row: Api.ReflectionInsert)
    | GetStreakCall(userId: string)
    | UpdateStreakCall(userId: string, streak: Api.StreakUpdate)

  /**
   * The store's answers to one finishing attempt: whether each write
   * succeeded, and what the streak read returned (None when it failed,
   * Some(None) when the user has no streak row).
   */
  datatype StoreAnswers = StoreAnswers(
    practiceOk: bool,
    reflectionOk: bool,
    streakRead: Option<Option<Api.Streak>>,
    streakWriteOk: bool)

  /** How the handler ends: it returns at once, or reports success, or reports a failure. */
  datatype Finish = NotStarted | Saved | Failed

  /** The reflection row a session saves: text and feedback only when non-empty. */
  function SessionReflection(userId: string, skillId: string, text: string, feedback: Option<string>)
    : (r: Api.ReflectionInsert)
    ensures 3 <= r.clarityGain <= 5
    ensures r.confusionNote == None <==> text == ""
    ensures r.difficultyFeeling.Some? ==> feedback == r.difficultyFeeling && r.difficultyFeeling.value != ""
  {
    Api.ReflectionInsert(userId, skillId, ClarityGain(feedback),
      if text == "" then None else Some(text),
      if feedback == None || feedback == Some("") then None else feedback)
  }

  /** The state of the daily session page. */
  class Session {
    var selectedSkill: Option<Api.Skill>
    var experiences: seq<Experience>
    var currentStep: int
    var reflectionText: string
    var difficultyFeedback: Option<string>

    /** The current step points into the plan whenever there is one. */
    ghost predicate Valid()
      reads this
    {
      if experiences == [] then currentStep == 0 else 0 <= currentStep < |experiences|
    }

    constructor ()
      ensures Valid()
      ensures selectedSkill == None && experiences == [] && currentStep == 0
      ensures reflectionText == "" && difficultyFeedback == None
    {
      selectedSkill := None;
      experiences := [];
      currentStep := 0;
      reflectionText := "";
      difficultyFeedback := None;
    }

    /** `selectSkill`: a fresh four-step plan for the skill, from the first step, answers cleared. */
    method SelectSkill(skill: Api.Skill)
      modifies this
      ensures Valid()
      ensures selectedSkill == Some(skill) && experiences == GeneratedSteps(skill.name)
      ensures currentStep == 0 && reflectionText == "" && difficultyFeedback == None
      ensures |experiences| == 4 && CompletedCount(experiences) == 0 && TotalDuration(experiences) == 40
    {
      selectedSkill := Some(skill);
      experiences := GeneratedSteps(skill.name);
      GeneratedStepsShape(skill.name);
      currentStep := 0;
      reflectionText := "";
      difficultyFeedback := None;
    }

    /**
     * `handleCompleteStep` ("Mark Complete", shown while a current step
     * exists): mark the current step done and move on unless it is the last.
     */
    method CompleteStep()
      requires Valid() && experiences != []
      modifies this
      ensures Valid()
      ensures experiences == old(experiences)[old(currentStep) := old(experiences)[old(currentStep)].(completed := true)]
      ensures currentStep == if old(currentStep) < |old(experiences)| - 1 then old(currentStep) + 1 else old(currentStep)
      ensures CompletedCount(experiences)
        == old(CompletedCount(experiences)) + (if old(experiences)[old(currentStep)].completed then 0 else 1)
      ensures selectedSkill == old(selectedSkill) && reflectionText == old(reflectionText)
      ensures difficultyFeedback == old(difficultyFeedback)
    {
      var step := experiences[currentStep];
      Seqs.CountUpdate(experiences, currentStep, step.(completed := true), IsCompleted);
      experiences := experiences[currentStep := step.(completed := true)];
      if currentStep < |experiences| - 1 {
        currentStep := currentStep + 1;
      }
    }

    /** "Previous": one step back, never below the first. */
    method PreviousStep()
      requires Valid()
      modifies this`currentStep
      ensures Valid()
      ensures currentStep == Max(0, old(currentStep) - 1)
      ensures currentStep <= old(currentStep)
    {
      currentStep := Max(0, currentStep - 1);
    }

    /** "Next Step", shown instead of "Mark Complete" on a step already done, before the last. */
    method NextStep()
      requires Valid() && currentStep < |experiences| - 1
      modifies this`currentStep
      ensures Valid() && currentStep == old(currentStep) + 1
    {
      currentStep := currentStep + 1;
    }

    /** Clicking a step in the progress strip jumps to it. */
    method GoToStep(idx: int)
      requires Valid() && 0 <= idx < |experiences|
      modifies this`currentStep
      ensures Valid() && currentStep == idx
    {
      currentStep := idx;
    }

    /** Typing in the reflection box. */
    method SetReflectionText(text: string)
      modifies this`reflectionText
      ensures reflectionText == text
    {
      reflectionText := text;
    }

    /** One of the three "How did it feel?" buttons. */
    method ChooseDifficulty(tag: string)
      requires IsDifficultyTag(tag)
      modifies this`difficultyFeedback
      ensures difficultyFeedback == Some(tag)
    {
      difficultyFeedback := Some(tag);
    }

    /**
     * `handleFinishSession`: log practice, then save the reflection, then
     * read the streak and, if a row exists, write its update; the first
     * failure ends the sequence and reports an error.
     */
    method FinishSession(userId: Option<string>, today: string, answers: StoreAnswers)
      returns (calls: seq<StoreCall>, outcome: Finish)
      ensures outcome == NotStarted <==> userId.None? || selectedSkill.None?
      ensures outcome == NotStarted ==> calls == []
      ensures outcome != NotStarted ==>
        && 1 <= |calls| <= 4
        && calls[0] == LogPracticeCall(selectedSkill.value.id,
             Api.LogPractice(Api.OrZero(selectedSkill.value.daysPracticed), today))
        && (|calls| >= 2 ==>
              answers.practiceOk
              && calls[1] == CreateReflectionCall(SessionReflection(userId.value, selectedSkill.value.id,
                                                                    reflectionText, difficultyFeedback)))
        && (|calls| >= 2 <==> answers.practiceOk)
        && (|calls| >= 3 <==> answers.practiceOk && answers.reflectionOk)
        && (|calls| >= 3 ==> calls[2] == GetStreakCall(userId.value))
        && (|calls| == 4 <==> answers.practiceOk && answers.reflectionOk && answers.streakRead.Some?
                              && answers.streakRead.value.Some?)
        && (|calls| == 4 ==> calls[3] == UpdateStreakCall(userId.value,
                               NextStreak(answers.streakRead.value.value, today)))
      ensures outcome == Saved <==>
        userId.Some? && selectedSkill.Some? && answers.practiceOk && answers.reflectionOk
        && answers.streakRead.Some? && (answers.streakRead.value.None? || answers.streakWriteOk)
    {
      calls := [];
      if userId.None? || selectedSkill.None? {
        return calls, NotStarted;
      }
      var user, skill := userId.value, selectedSkill.value;
      calls := [LogPracticeCall(skill.id, Api.LogPractice(Api.OrZero(skill.daysPracticed), today))];
      if !answers.practiceOk {
        return calls, Failed;
      }
      calls := calls + [CreateReflectionCall(SessionReflection(user, skill.id, reflectionText, difficultyFeedback))];
      if !answers.reflectionOk {
        return calls, Failed;
      }
      calls := calls + [GetStreakCall(user)];
      if answers.streakRead.None? {
        return calls, Failed;
      }
      var streak := answers.streakRead.value;
      if streak.Some? {
        calls := calls + [UpdateStreakCall(user, NextStreak(streak.value, today))];
        if !answers.streakWriteOk {
          return calls, Failed;
        }
      }
      outcome := Saved;
    }
  }
}
