/**
 * The create-goal wizard of the dashboard
 * (src/components/dashboard/CreateGoalModal.tsx): four steps (title,
 * category, timeline, effort), each guarded by `canProceed`; Back at the
 * first step closes the modal, Forward at the last submits and resets.
 */
module CreateGoal {
  import opened Wrappers
  import Text

  /** The ids of the category, timeline and effort buttons. */
  const Categories: seq<string> := ["technical", "creative", "fitness", "academic", "professional", "personal"]
  const Timelines: seq<string> := ["1month", "3months", "6months", "1year"]
  const Efforts: seq<string> := ["light", "moderate", "intensive"]

  /** The goal handed to `onSubmit`. */
  datatype GoalDraft = GoalDraft(title: string, category: string, timeline: string, effort: string)

  /** `canProceed`: the guard of each step, false outside 1..4. */
  predicate CanProceed(step: int, d: GoalDraft)
    ensures CanProceed(step, d) ==> 1 <= step <= 4
  {
    if step == 1 then |Text.Trim(d.title)| > 0
    else if step == 2 then d.category != ""
    else if step == 3 then d.timeline != ""
    else if step == 4 then d.effort != ""
    else false
  }

  /** The title step accepts exactly the titles that are not blank. */
  lemma TitleGuard(d: GoalDraft)
    ensures CanProceed(1, d) <==> !Text.IsBlank(d.title)
  {
    Text.TrimEmptyIffBlank(d.title);
  }

  /** A goal every step of which has been passed. */
  predicate Complete(d: GoalDraft) {
    forall k :: 1 <= k <= 4 ==> CanProceed(k, d)
  }

  /** A complete goal is a non-blank title with a category, a timeline and an effort chosen. */
  lemma CompleteMeans(d: GoalDraft)
    ensures Complete(d) <==>
      !Text.IsBlank(d.title) && d.category != "" && d.timeline != "" && d.effort != ""
  {
    TitleGuard(d);
    assert Complete(d) <==> CanProceed(1, d) && CanProceed(2, d) && CanProceed(3, d) && CanProceed(4, d);
  }

  /** The modal's state: the step and the four answers. */
  class Modal {
    var step: int
    var draft: GoalDraft

    /** The step is within 1..4 and every earlier step's guard holds on the current answers. */
    ghost predicate Valid()
      reads this
    {
      && 1 <= step <= 4
      && (step > 1 ==> |Text.Trim(draft.title)| > 0)
      && (step > 2 ==> draft.category != "")
      && (step > 3 ==> draft.timeline != "")
    }

    constructor ()
      ensures Valid() && step == 1 && draft == GoalDraft("", "", "", "")
    {
      step := 1;
      draft := GoalDraft("", "", "", "");
    }

    /** Typing the title, on step 1. */
    method SetTitle(title: string)
      requires Valid() && step == 1
      modifies this`draft
      ensures Valid() && draft == old(draft).(title := title)
    {
      draft := draft.(title := title);
    }

    /** A category button, on step 2. */
    method ChooseCategory(id: string)
      requires Valid() && step == 2 && id in Categories
      modifies this`draft
      ensures Valid() && draft == old(draft).(category := id)
    {
      draft := draft.(category := id);
    }

    /** A timeline button, on step 3. */
    method ChooseTimeline(id: string)
      requires Valid() && step == 3 && id in Timelines
      modifies this`draft
      ensures Valid() && draft == old(draft).(timeline := id)
    {
      draft := draft.(timeline := id);
    }

    /** An effort button, on step 4. */
    method ChooseEffort(id: string)
      requires Valid() && step == 4 && id in Efforts
      modifies this`draft
      ensures Valid() && draft == old(draft).(effort := id)
    {
      draft := draft.(effort := id);
    }

    /** Back: one step back above the first; at the first step "Cancel" closes the modal instead. */
    method Back() returns (closed: bool)
      requires Valid()
      modifies this`step
      ensures Valid()
      ensures closed <==> old(step) == 1
      ensures step == if old(step) > 1 then old(step) - 1 else old(step)
    {
      if step > 1 {
        step := step - 1;
        closed := false;
      } else {
        closed := true;
      }
    }

    /**
     * Forward, enabled only when `canProceed` holds: move on below the last
     * step; at the last step `handleSubmit` hands the four answers as
     * entered to `onSubmit` and resets the modal to an empty first step.
     */
    method Forward() returns (submitted: Option<GoalDraft>)
      requires Valid() && CanProceed(step, draft)
      modifies this
      ensures Valid()
      ensures old(step) < 4 ==> submitted == None && step == old(step) + 1 && draft == old(draft)
      ensures old(step) == 4 ==> submitted == Some(old(draft)) && step == 1 && draft == GoalDraft("", "", "", "")
      ensures submitted.Some? ==> Complete(submitted.value)
    {
      if step < 4 {
        step := step + 1;
        submitted := None;
      } else {
        submitted := Some(draft);
        step := 1;
        draft := GoalDraft("", "", "", "");
      }
    }
  }
}
