/**
 * The four-step onboarding wizard (src/pages/Onboarding.tsx): name, goal
 * and category, daily time, learning style; its per-step guard, the
 * navigation that keeps the step in 1..4, the default display name and the
 * two writes of `handleComplete` (profile, then first goal).
 */
module Onboarding {
  import opened Wrappers
  import Text

  /** The answers gathered by the wizard. */
  datatype Answers = Answers(
    displayName: string,
    primaryGoal: string,
    category: string,
    timePerDay: string,
    learningStyle: string)

  const TotalSteps: int := 4

  /** The ids of the category, time and style buttons. */
  const Categories: seq<string> := ["tech", "business", "creative", "language", "personal", "other"]
  const TimeOptions: seq<string> := ["15min", "30min", "1hour", "2hours"]
  const LearningStyles: seq<string> := ["discipline", "light", "flexible"]

  /** The guards of the four steps. */
  predicate NameReady(a: Answers) {
    |Text.Trim(a.displayName)| >= 2
  }

  predicate GoalReady(a: Answers) {
    |Text.Trim(a.primaryGoal)| >= 3 && a.category != ""
  }

  predicate TimeReady(a: Answers) {
    a.timePerDay != ""
  }

  predicate StyleReady(a: Answers) {
    a.learningStyle != ""
  }

  /** `canProceed`: whether the current step's answer is good enough to go on. */
  predicate CanProceed(step: int, a: Answers)
    ensures CanProceed(step, a) ==> 1 <= step <= TotalSteps
  {
    if step == 1 then NameReady(a)
    else if step == 2 then GoalReady(a)
    else if step == 3 then TimeReady(a)
    else if step == 4 then StyleReady(a)
    else false
  }

  /** The Next button is disabled when the step's guard fails or a submission is running. */
  predicate NextDisabled(step: int, a: Answers, isSubmitting: bool) {
    !CanProceed(step, a) || isSubmitting
  }

  /**
   * The name step lets the user on exactly when the name holds two
   * non-space characters (possibly the same run of text, e.g. "Al").
   */
  lemma NameStepGuard(a: Answers)
    ensures CanProceed(1, a) <==>
      exists i, j :: 0 <= i < j < |a.displayName| && !Text.IsSpace(a.displayName[i]) && !Text.IsSpace(a.displayName[j])
  {
    Text.TrimLengthAtLeast(a.displayName, 2);
  }

  /** The goal step needs three non-space characters' span and a chosen category. */
  lemma GoalStepGuard(a: Answers)
    ensures CanProceed(2, a) <==>
      a.category != "" &&
      exists i, j :: 0 <= i <= j < |a.primaryGoal| && j - i >= 2
                     && !Text.IsSpace(a.primaryGoal[i]) && !Text.IsSpace(a.primaryGoal[j])
  {
    Text.TrimLengthAtLeast(a.primaryGoal, 3);
  }

  /** `daysMap[timePerDay] || 60`: the goal's planned days for a daily time option. */
  function DaysRemaining(timePerDay: string): (days: int)
    ensures days in {30, 45, 60, 90}
    ensures timePerDay !in TimeOptions ==> days == 60
  {
    if timePerDay == "15min" then 90
    else if timePerDay == "30min" then 60
    else if timePerDay == "1hour" then 45
    else if timePerDay == "2hours" then 30
    else 60
  }

  /** More time per day plans a shorter goal: the options, in order, get strictly fewer days. */
  lemma DaysRemainingShrinks(i: nat, j: nat)
    requires i < j < |TimeOptions|
    ensures DaysRemaining(TimeOptions[i]) > DaysRemaining(TimeOptions[j])
  {
  }

  /** The profile fields written by `completeOnboarding`. */
  datatype ProfileUpdate = ProfileUpdate(displayName: string, learningStyle: string, currentGoal: string)

  /** The first goal inserted by `createGoal`. */
  datatype GoalInsert = GoalInsert(title: string, category: string, timeline: string, effortLevel: string,
                                   daysRemaining: int)

  /** The profile update: the answers as typed and chosen. */
  function ProfileOf(a: Answers): ProfileUpdate {
    ProfileUpdate(a.displayName, a.learningStyle, a.primaryGoal)
  }

  /** The first goal: the untrimmed goal text, a three-month timeline and the time option as effort. */
  function GoalRecord(a: Answers): (g: GoalInsert)
    ensures g.title == a.primaryGoal && g.category == a.category
    ensures g.timeline == "3months" && g.effortLevel == a.timePerDay
    ensures g.daysRemaining == DaysRemaining(a.timePerDay)
  {
    GoalInsert(a.primaryGoal, a.category, "3months", a.timePerDay, DaysRemaining(a.timePerDay))
  }

  /**
   * `user_metadata?.display_name || email?.split("@")[0] || ""`: a
   * non-empty metadata name, else the part of the e-mail before "@".
   */
  function DefaultDisplayName(metaName: Option<string>, email: Option<string>): (r: string)
    ensures metaName.Some? && metaName.value != "" ==> r == metaName.value
    ensures !(metaName.Some? && metaName.value != "") && email.Some? ==>
      '@' !in r && |r| <= |email.value| && email.value[..|r|] == r
      && (|r| < |email.value| ==> email.value[|r|] == '@')
    ensures !(metaName.Some? && metaName.value != "") && email.None? ==> r == ""
  {
    if metaName.Some? && metaName.value != "" then metaName.value
    else if email.Some? && Text.BeforeFirst(email.value, '@') != "" then Text.BeforeFirst(email.value, '@')
    else ""
  }

  /** The writes of `handleComplete`. */
  datatype Write = CompleteOnboardingCall(userId: string, profile: ProfileUpdate)
                 | CreateGoalCall(userId: string, goal: GoalInsert)

  /** How a completion ended: no signed-in user, welcomed to the dashboard, or an error toast. */
  datatype Completion = NoUser | Welcomed | Failed

  /** The wizard's state: the step shown, the answers, and whether a completion is running. */
  class Wizard {
    var step: int
    var answers: Answers
    var isSubmitting: bool

    /** The step stays within 1..4. */
    ghost predicate Valid()
      reads this
    {
      1 <= step <= TotalSteps
    }

    /** Every step before the current one was passed with the answers now held. */
    ghost predicate Passed()
      reads this
    {
      && (step > 1 ==> NameReady(answers))
      && (step > 2 ==> GoalReady(answers))
      && (step > 3 ==> TimeReady(answers))
    }

    constructor ()
      ensures Valid() && Passed()
      ensures step == 1 && answers == Answers("", "", "", "", "") && !isSubmitting
    {
      step := 1;
      answers := Answers("", "", "", "", "");
      isSubmitting := false;
    }

    /** The user effect: once a user is known, fill the name from its metadata or e-mail. */
    method LoadUser(metaName: Option<string>, email: Option<string>)
      modifies this`answers
      ensures answers == old(answers).(displayName := DefaultDisplayName(metaName, email))
    {
      answers := answers.(displayName := DefaultDisplayName(metaName, email));
    }

    /** Typing the name, on step 1. */
    method SetDisplayName(name: string)
      requires Valid() && Passed() && step == 1
      modifies this`answers
      ensures Valid() && Passed()
      ensures answers == old(answers).(displayName := name)
    {
      answers := answers.(displayName := name);
    }

    /** Typing the goal, on step 2. */
    method SetPrimaryGoal(goal: string)
      requires Valid() && Passed() && step == 2
      modifies this`answers
      ensures Valid() && Passed()
      ensures answers == old(answers).(primaryGoal := goal)
    {
      answers := answers.(primaryGoal := goal);
    }

    /** A category button, on step 2. */
    method ChooseCategory(id: string)
      requires Valid() && Passed() && step == 2 && id in Categories
      modifies this`answers
      ensures Valid() && Passed()
      ensures answers == old(answers).(category := id)
    {
      answers := answers.(category := id);
    }

    /** A time option button, on step 3. */
    method ChooseTime(id: string)
      requires Valid() && Passed() && step == 3 && id in TimeOptions
      modifies this`answers
      ensures Valid() && Passed()
      ensures answers == old(answers).(timePerDay := id)
    {
      answers := answers.(timePerDay := id);
    }

    /** A learning style button, on step 4. */
    method ChooseStyle(id: string)
      requires Valid() && Passed() && step == 4 && id in LearningStyles
      modifies this`answers
      ensures Valid() && Passed()
      ensures answers == old(answers).(learningStyle := id)
    {
      answers := answers.(learningStyle := id);
    }

    /** `handleBack`: one step back, never below the first. */
    method Back()
      requires Valid() && Passed()
      modifies this`step
      ensures Valid() && Passed()
      ensures step == if old(step) > 1 then old(step) - 1 else old(step)
    {
      if step > 1 {
        step := step - 1;
      }
    }

    /**
     * `handleComplete`: with a user, write the profile and then, only if
     * that succeeded, the first goal; welcome the user only when both
     * writes succeed. The submitting flag is back to false afterwards.
     */
    method HandleComplete(userId: Option<string>, profileOk: bool, goalOk: bool)
      returns (writes: seq<Write>, outcome: Completion)
      ensures userId.None? <==> outcome == NoUser
      ensures userId.None? ==> writes == []
      ensures userId.Some? ==> 1 <= |writes| <= 2 && writes[0] == CompleteOnboardingCall(userId.value, ProfileOf(answers))
      ensures |writes| == 2 <==> userId.Some? && profileOk
      ensures |writes| == 2 ==> writes[1] == CreateGoalCall(userId.value, GoalRecord(answers))
      ensures outcome == Welcomed <==> userId.Some? && profileOk && goalOk
    {
      if userId.None? {
        return [], NoUser;
      }
      writes := [CompleteOnboardingCall(userId.value, ProfileOf(answers))];
      if !profileOk {
        return writes, Failed;
      }
      writes := writes + [CreateGoalCall(userId.value, GoalRecord(answers))];
      outcome := if goalOk then Welcomed else Failed;
    }

    /**
     * `handleNext`, reachable only while the button is enabled: below the
     * last step move on (nothing is written); on the last step complete.
     */
    method Next(userId: Option<string>, profileOk: bool, goalOk: bool)
      returns (writes: seq<Write>, outcome: Option<Completion>)
      requires Valid() && Passed() && !NextDisabled(step, answers, isSubmitting)
      modifies this`step
      ensures Valid() && Passed()
      ensures old(step) < TotalSteps ==> step == old(step) + 1 && writes == [] && outcome == None
      ensures old(step) == TotalSteps ==> step == old(step) && outcome.Some?
      ensures old(step) == TotalSteps ==>
        && (outcome == Some(NoUser) <==> userId.None?)
        && (userId.None? ==> writes == [])
        && (userId.Some? ==> 1 <= |writes| <= 2 && writes[0] == CompleteOnboardingCall(userId.value, ProfileOf(answers)))
        && (|writes| == 2 <==> userId.Some? && profileOk)
        && (outcome == Some(Welcomed) <==> userId.Some? && profileOk && goalOk)
      ensures old(step) == TotalSteps && |writes| == 2 ==> writes[1] == CreateGoalCall(userId.value, GoalRecord(answers))
      ensures outcome == Some(Welcomed) ==>
        userId.Some? && writes == [CompleteOnboardingCall(userId.value, ProfileOf(answers)),
                                   CreateGoalCall(userId.value, GoalRecord(answers))]
    {
      if step < TotalSteps {
        step := step + 1;
        return [], None;
      }
      var c;
      writes, c := HandleComplete(userId, profileOk, goalOk);
      outcome := Some(c);
    }
  }

  /** A welcomed user's first goal carries the guarded answers: a real goal text and a chosen category. */
  lemma WelcomedGoalIsGuarded(a: Answers)
    requires forall k :: 1 <= k < TotalSteps ==> CanProceed(k, a)
    ensures |Text.Trim(GoalRecord(a).title)| >= 3 && GoalRecord(a).category != ""
    ensures GoalRecord(a).effortLevel != ""
  {
    assert CanProceed(2, a) && CanProceed(3, a);
  }
}
