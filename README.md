# ALSIP learning-coach core, modelled in Dafny

ALSIP is a web app that helps a learner reach a goal by practising skills every day. This project models the app's logic:

- **Daily session page** (`src/pages/DailyPlan.tsx`):
  - the four-step plan generated for a skill;
  - step navigation;
  - the clarity gain read off the difficulty answer;
  - the streak update;
  - the ordered writes that finish a session.
- **Analytics service** (`src/services/api.ts`):
  - the practice-log update;
  - the confidence history: running scores per skill, sorted by date;
  - the streak history;
  - the time invested per skill.
- **Progress charts** (`ProgressCharts.tsx`):
  - averaging confidence per day;
  - the hour totals;
  - the last 14 streak bars;
  - the tooltip's split into hours and minutes.
- **Reflections page** (`src/pages/Reflections.tsx`):
  - filtering by skill;
  - skill names;
  - the chart's running halving per day;
  - the average clarity;
  - the export field mapping.
- **Onboarding wizard** (`src/pages/Onboarding.tsx`):
  - the step guards;
  - Next and Back;
  - the default display name;
  - the profile and first-goal writes.
- **Dashboard widgets**:
  - the create-goal modal;
  - skill suggestions;
  - the resource library;
  - the daily plan card;
  - the learning-outcome and confidence modals;
  - the add-skill modal;
  - the recovery card.

## How the model is organised

- **Modules.** There is one module per source file (`DailyPlan`, `Api`, `ProgressCharts`, `Reflections`, `Onboarding`, `CreateGoal`, `SkillSuggestions`, `ResourceLibrary`, `DailyPlanCard`, `LearningOutcome`, `ConfidenceUpdate`, `AddSkill`, `RecoveryMode`).
- **Shared helpers.** A few modules hold helpers used across the others:
  - `Wrappers`: `Option`.
  - `Text`: JavaScript's `trim`, `toLowerCase`, `includes`, `split(..)[0]` and integer formatting.
  - `Seqs`: sum, mean, filter, first-appearance `Set` order, count.
  - `DateGroups`: the scores of each date, shared by the two per-date charts.
- **Components as classes.**
  - A component whose state the user changes step by step is a `class`. Its `useState` fields are class fields.
  - Each handler is a method. The method's `modifies` clause names only the fields that the handler's setters touch.
  - A disabled button or a field rendered only on one step becomes a `requires` on the method the button calls.
- **Pure code as functions.** The pure computations are functions:
  - the `canProceed` switches;
  - the label tables;
  - `formatDuration`;
  - the streak expression;
  - the export mapping.
  Lemmas relate these functions to the behaviour the page promises.
- **Loops as methods.** Loops in the source are methods with loop invariants. Each is proved equal to a specification function, and the properties are proved about that function:
  - the two `reduce`s that mutate their accumulator;
  - the nested `forEach` of the confidence history;
  - the streak-history `for`;
  - the `for … of` in `addAllSkills` and `getSuggestions`.
- **The record store.** The store (Supabase) is an environment.
  - Each handler takes what the store answers as parameters: a success flag, a row read, or nothing.
  - Each handler returns the sequence of writes it issues, so order and short-circuiting on failure are stated in its contract.
  - The clock is a parameter (`today`).
  - Dates are ISO strings compared by equality. The streak history uses day numbers.

The code is followed where it differs from the intended design. The model states what the code does:

- `logPractice` has no same-day guard. Two logs on one day count two days (`Api.LogPracticeTwiceSameDay`).
- Nothing detects missed days or sets recovery mode. A completed session always writes `is_in_recovery = false` and `missed_days = 0`, whatever the gap (`DailyPlan.NextStreakIgnoresGap`).
- No goal-progress mean is computed anywhere (the dashboard shows a fixed number). There is no "confidence check-in due" predicate. Neither is modelled.
- The Reflections chart does not average. A repeated date halves towards the newest score. This equals the mean for two values but not for three, and it depends on order (`Reflections.HalvingVersusMean`).
- The recovery card reads outside its array for `missedDays <= 0`, and nothing guards this (`RecoveryMode.NoMessageWithoutMissedDays`).
- The tooltip's hour/minute split is exact only for non-negative totals (`ProgressCharts.TooltipNegative`).

## Model

| member | source | states |
|---|---|---|
| Api.LogPracticeEffect | src/services/api.ts:215-224 | logging practice stores the old day count (null read as 0) plus one and today's date, and leaves every other column unchanged |
| Api.LogPractice | src/services/api.ts:215-224 | the update writes the given day count plus one and today's date |
| Api.LogPracticeTwiceSameDay | src/services/api.ts:215-224 | two logs on the same day add two days: there is no same-day guard |
| Api.RunningScore | src/services/api.ts:413-416 | the running score after at least one outcome is at most 10 |
| Api.RunningScoreMonotone | src/services/api.ts:413-416 | with non-negative clarity gains, every prefix's running score lies in 0..10 and never exceeds the full running score |
| Api.OutcomeEntries | src/services/api.ts:415-422 | one point per matching outcome, dated by the part of `created_at` before "T", scored with the running score up to and including that outcome |
| Api.HistoryLength | src/services/api.ts:411-432 | the history has, per skill, one point per matching outcome plus one iff both current confidence and its date are truthy |
| Api.UnmatchedOutcomeIgnored | src/services/api.ts:411-412 | an outcome whose skill id matches no skill adds nothing to the history |
| Api.BuildHistory | src/services/api.ts:411-432 | every history point is labelled with the name of one of the skills |
| Api.HistoryScoresCapped | src/services/api.ts:413-431 | every history score is at most 10 when the stored confidence scores are |
| Api.InsertByDatePermutes | src/services/api.ts:434 | inserting a point adds exactly that point to the list |
| Api.InsertByDateSorted | src/services/api.ts:434 | inserting a point into a date-sorted list keeps it sorted |
| Api.SortByDate | src/services/api.ts:434 | the date sort returns a permutation of its input (same multiset) that is sorted by date |
| Api.GetConfidenceHistory | src/services/api.ts:408-434 | the nested loops produce exactly the per-skill points in skill order, then sorted by date |
| Api.OutcomePoints | src/services/api.ts:412-421 | the inner loop pushes one point per outcome, dated by the outcome, scored by the running score capped at 10 |
| Api.SkillPoints | src/services/api.ts:411-430 | one skill's turn pushes its outcome points then its current confidence point |
| Api.GetStreakHistory | src/services/api.ts:443-453 | `current_streak` entries (none for 0/null), streak values 1..n in order, on consecutive days ending today |
| Api.TimeInvestedBySkill | src/services/api.ts:467-471 | one entry per skill in order, days = days practised (null as 0), minutes = 30 × days |
| DailyPlan.GeneratedSteps | src/pages/DailyPlan.tsx:86-119 | four steps, in the order concept, task, variation, reflection, none of them completed |
| DailyPlan.GeneratedStepsShape | src/pages/DailyPlan.tsx:86-119 | the plan has four uncompleted steps concept/task/variation/reflection of 10, 15, 10, 5 minutes, 40 in all |
| DailyPlan.CompletedCount | src/pages/DailyPlan.tsx:191 | the completed count never exceeds the number of steps |
| DailyPlan.TotalDuration | src/pages/DailyPlan.tsx:192 | the total minutes are non-negative when every step's duration is |
| DailyPlan.ClarityGain | src/pages/DailyPlan.tsx:146-147 | the clarity gain is 5 iff "too_easy", 4 iff "just_right", otherwise 3, so always 3..5 |
| DailyPlan.NextStreak | src/pages/DailyPlan.tsx:163-174 | the written longest streak covers the new current streak and the old longest, and equals one of them; the date is today, recovery is off and missed days are 0 |
| DailyPlan.NextCurrent | src/pages/DailyPlan.tsx:163-166 | on a new day the stored streak (null as 0) plus one; on a repeat today 1 iff the stored streak is 0, null or 1, otherwise the stored streak unchanged |
| DailyPlan.NextStreakCount | src/pages/DailyPlan.tsx:163-166 | a new day gives old current + 1 (null as 0); a repeat today keeps the old count, or 1 when it was 0/null |
| DailyPlan.NextStreakIgnoresGap | src/pages/DailyPlan.tsx:161-174 | any two last-activity dates other than today give the same streak write: the gap is never examined |
| DailyPlan.SameDayIdempotent | src/pages/DailyPlan.tsx:163-174 | a second completion on the same day writes back the row the first produced |
| DailyPlan.CompletionsKeepLongest | src/pages/DailyPlan.tsx:170 | after any run of completions the longest streak is at least the current one and at least the initial longest |
| DailyPlan.FreshDaysCount | src/pages/DailyPlan.tsx:163-166 | completions on a run of days each different from the one before add one per day to the current streak |
| DailyPlan.SessionReflection | src/pages/DailyPlan.tsx:146-155 | the saved reflection has clarity 3..5, a null note iff the text is empty, and the feedback only when non-empty |
| DailyPlan.Session.constructor | src/pages/DailyPlan.tsx:50-54 | no skill, no steps, step 0, empty text, no feedback |
| DailyPlan.Session.SelectSkill | src/pages/DailyPlan.tsx:83-124 | the skill's fresh plan replaces the steps, with step 0, text and feedback cleared, 0/4 completed and 40 minutes |
| DailyPlan.Session.CompleteStep | src/pages/DailyPlan.tsx:126-134 | only the current step becomes completed, and the step advances unless it is the last |
| DailyPlan.Session.PreviousStep | src/pages/DailyPlan.tsx:400 | the step becomes max(0, step − 1) |
| DailyPlan.Session.NextStep | src/pages/DailyPlan.tsx:428 | before the last step, the step advances by one |
| DailyPlan.Session.GoToStep | src/pages/DailyPlan.tsx:282 | clicking a step in the strip makes it current |
| DailyPlan.Session.SetReflectionText | src/pages/DailyPlan.tsx:363 | the reflection text is what was typed |
| DailyPlan.Session.ChooseDifficulty | src/pages/DailyPlan.tsx:374-380 | the feedback is the chosen button's tag |
| DailyPlan.Session.FinishSession | src/pages/DailyPlan.tsx:136-188 | nothing happens without a user and skill; otherwise the writes are practice log, reflection, streak read, and streak write only when a row exists; the first failure stops the sequence: the reflection is written iff the practice log succeeded, and the streak is read iff both earlier writes succeeded; success iff every step succeeded |
| ProgressCharts.TotalScoresUpdate | src/components/dashboard/ProgressCharts.tsx:46-47 | replacing one day's entry changes the total score count by the difference of the two lists' lengths |
| ProgressCharts.JoinStep | src/components/dashboard/ProgressCharts.tsx:44-47 | a point whose date has an entry joins it: the scores gain the point and the score becomes their mean, keeping the aggregation invariant |
| ProgressCharts.OpenStep | src/components/dashboard/ProgressCharts.tsx:48-49 | a point with a new date opens an entry at the end with its own score, keeping the aggregation invariant |
| ProgressCharts.AddPoint | src/components/dashboard/ProgressCharts.tsx:44-51 | the reduce callback: a point joins the entry of its date (its scores gain the point, its score becomes their mean) or opens a new entry at the end; either way the aggregation of the points seen so far extends to this point |
| ProgressCharts.AggregateConfidence | src/components/dashboard/ProgressCharts.tsx:43-52 | one entry per distinct date in first-appearance order; each entry's scores are that date's scores in input order, and its score is their mean; the score lists add up to the input length |
| ProgressCharts.SingleScoreKept | src/components/dashboard/ProgressCharts.tsx:49 | a date seen once keeps its original score |
| ProgressCharts.TotalMinutes | src/components/dashboard/ProgressCharts.tsx:59 | the total minutes are non-negative when every entry's minutes are |
| ProgressCharts.TotalHours | src/components/dashboard/ProgressCharts.tsx:59-60 | the hours are the floor of the total minutes over 60 |
| ProgressCharts.TotalMinutesOfSkills | src/components/dashboard/ProgressCharts.tsx:59 | on the analytics data, total minutes are 30 × the days practised over all skills |
| ProgressCharts.RecentStreak | src/components/dashboard/ProgressCharts.tsx:144 | the last min(14, n) points, in order |
| ProgressCharts.TooltipSplitExact | src/components/dashboard/ProgressCharts.tsx:207 | for v ≥ 0, 60·h + m = v with 0 ≤ m < 60 |
| ProgressCharts.TooltipParts | src/components/dashboard/ProgressCharts.tsx:207 | the shown minutes lie strictly between −60 and 60 and carry the sign of the value (truncating remainder) |
| ProgressCharts.TooltipNegative | src/components/dashboard/ProgressCharts.tsx:207 | for negative v not a whole number of hours, the shown split adds up to v − 60 |
| Reflections.FilteredReflections | src/pages/Reflections.tsx:108-110 | no (or an empty) selection shows every reflection; otherwise the list filtered by the selected skill id, so exactly those reflections in their original order |
| Reflections.FindSkill | src/pages/Reflections.tsx:96 | none iff no skill has the id; otherwise a listed skill with that id |
| Reflections.SkillName | src/pages/Reflections.tsx:95-97 | never empty; "Unknown Skill" when no skill has the id; when the found skill has a non-empty name, that name, and "Unknown Skill" when its name is empty |
| Reflections.Halving | src/pages/Reflections.tsx:179-184 | a date whose scores are all equal is charted at that score |
| Reflections.HalvingBounds | src/pages/Reflections.tsx:181 | the halved score stays between the bounds of the scores it folds |
| Reflections.HalvingVersusMean | src/pages/Reflections.tsx:179-184 | two values halve to their mean; three need not, and arrival order changes the result |
| Reflections.HalveStep | src/pages/Reflections.tsx:180-181 | a repeated date's point becomes (previous + new)/2, keeping the chart invariant |
| Reflections.StartStep | src/pages/Reflections.tsx:182-183 | a new date's point is appended with its own score, keeping the chart invariant |
| Reflections.NewPointHalved | src/pages/Reflections.tsx:183 | a date's first point carries the halving of that date's only score |
| Reflections.ChartData | src/pages/Reflections.tsx:178-186 | one point per distinct date, in first-appearance order, scored by the running halving of that date's scores |
| Reflections.Clarities | src/pages/Reflections.tsx:334 | the clarity gains of the reflections, in order |
| Reflections.AverageClarity | src/pages/Reflections.tsx:333-335 | 0 for no reflections; with gains on 1..5 and a non-empty list, the average clarity lies in 1..5 |
| Reflections.ClarityText | src/pages/Reflections.tsx:117 | the exported clarity text is never empty |
| Reflections.ClarityTextLevel | src/pages/Reflections.tsx:117 | the clarity text is a "Level n" text iff n is outside the 1..5 label table |
| Reflections.ClarityTextInjective | src/pages/Reflections.tsx:117 | different clarity levels export as different texts |
| Reflections.DifficultyText | src/pages/Reflections.tsx:118 | "N/A" iff there is no (or an empty) feeling; "Too Easy", "Just Right", "Too Hard" for the three tags; undefined iff a non-empty feeling is not a known tag |
| Reflections.NotesText | src/pages/Reflections.tsx:119 | the note itself when present and non-empty; "No notes" when it is missing or empty |
| Reflections.ExportRows | src/pages/Reflections.tsx:114-120 | one export row per shown reflection, in order, each mapped by its own fields |
| Reflections.PrintsNotesIff | src/pages/Reflections.tsx:164 | the print has a notes block iff the note is present, non-empty and not literally "No notes" |
| Onboarding.NameStepGuard | src/pages/Onboarding.tsx:71 | step 1 passes iff the name has two non-space characters at least one apart (trimmed length ≥ 2) |
| Onboarding.GoalStepGuard | src/pages/Onboarding.tsx:73 | step 2 passes iff the trimmed goal has length ≥ 3 and a category is chosen |
| Onboarding.CanProceed | src/pages/Onboarding.tsx:68-80 | Next is enabled only on a step in 1..4: no other step passes the guard |
| Onboarding.DaysRemaining | src/pages/Onboarding.tsx:111-123 | planned days are one of 30, 45, 60, 90, and 60 for any value not among the time options |
| Onboarding.DaysRemainingShrinks | src/pages/Onboarding.tsx:111-116 | a longer daily time plans strictly fewer days |
| Onboarding.GoalRecord | src/pages/Onboarding.tsx:118-124 | the first goal has the untrimmed goal text, the category, timeline "3months", the time option as effort and its planned days |
| Onboarding.DefaultDisplayName | src/pages/Onboarding.tsx:61 | the metadata name when non-empty, else the e-mail text before "@" (a prefix without "@"), else "" |
| Onboarding.Wizard.constructor | src/pages/Onboarding.tsx:44-52 | step 1, every answer empty, not submitting |
| Onboarding.Wizard.LoadUser | src/pages/Onboarding.tsx:58-62 | only the display name changes, to the default name |
| Onboarding.Wizard.SetDisplayName | src/pages/Onboarding.tsx:197 | only the name changes |
| Onboarding.Wizard.SetPrimaryGoal | src/pages/Onboarding.tsx:234 | only the goal changes |
| Onboarding.Wizard.ChooseCategory | src/pages/Onboarding.tsx:248 | only the category changes |
| Onboarding.Wizard.ChooseTime | src/pages/Onboarding.tsx:290 | only the time option changes |
| Onboarding.Wizard.ChooseStyle | src/pages/Onboarding.tsx:335 | only the style changes |
| Onboarding.Wizard.Back | src/pages/Onboarding.tsx:91-95 | the step decrements only above 1, and the earlier steps' guards still hold |
| Onboarding.Wizard.HandleComplete | src/pages/Onboarding.tsx:97-137 | no user: no writes; otherwise the profile update first, the goal insert only after it succeeded; welcomed iff both succeed |
| Onboarding.Wizard.Next | src/pages/Onboarding.tsx:83-89 | below step 4 the step increments with no writes; at step 4 the completion runs: no user means no writes and the no-user outcome, otherwise the profile update comes first, the goal insert (with the answers' goal record) is the second write and happens iff the profile update succeeded, and welcome iff both succeed; the step stays in 1..4 with every passed step's guard holding |
| Onboarding.WelcomedGoalIsGuarded | src/pages/Onboarding.tsx:118-124 | a goal created after passing the guards has a trimmed title of length ≥ 3, a category and an effort |
| CreateGoal.CanProceed | src/components/dashboard/CreateGoalModal.tsx:65-78 | Next is enabled only on a step in 1..4 |
| CreateGoal.TitleGuard | src/components/dashboard/CreateGoalModal.tsx:68 | step 1 passes iff the title is not blank |
| CreateGoal.CompleteMeans | src/components/dashboard/CreateGoalModal.tsx:65-78 | passing all four steps means a non-blank title and a category, timeline and effort chosen |
| CreateGoal.Modal.constructor | src/components/dashboard/CreateGoalModal.tsx:44-48 | step 1 with all four fields empty |
| CreateGoal.Modal.SetTitle | src/components/dashboard/CreateGoalModal.tsx:149 | only the title changes |
| CreateGoal.Modal.ChooseCategory | src/components/dashboard/CreateGoalModal.tsx:175 | only the category changes |
| CreateGoal.Modal.ChooseTimeline | src/components/dashboard/CreateGoalModal.tsx:210 | only the timeline changes |
| CreateGoal.Modal.ChooseEffort | src/components/dashboard/CreateGoalModal.tsx:254 | only the effort changes |
| CreateGoal.Modal.Back | src/components/dashboard/CreateGoalModal.tsx:286 | above step 1 the step decrements; at step 1 the modal closes and the step stays |
| CreateGoal.Modal.Forward | src/components/dashboard/CreateGoalModal.tsx:292-293 | below 4 the step increments; at 4 the four values are submitted as entered and the form resets to step 1 and empty fields; anything submitted is complete |
| SkillSuggestions.SkillsArray | src/components/dashboard/SkillSuggestionsCard.tsx:53 | a non-object body is used as is; an object's truthy `skills` field replaces it; the result is never null |
| SkillSuggestions.Known | src/components/dashboard/SkillSuggestionsCard.tsx:57-59 | a name listed exactly among the existing skills counts as known (the match ignores case) |
| SkillSuggestions.Fresh | src/components/dashboard/SkillSuggestionsCard.tsx:56-60 | a suggestion is shown iff it was received and no existing skill has its name ignoring case |
| SkillSuggestions.FreshAppend | src/components/dashboard/SkillSuggestionsCard.tsx:56-60 | filtering is per item and keeps order: filtering a concatenation concatenates the filtered parts |
| SkillSuggestions.FreshIgnoresCase | src/components/dashboard/SkillSuggestionsCard.tsx:58 | "Python" is dropped when "python" exists |
| SkillSuggestions.ToAdd | src/components/dashboard/SkillSuggestionsCard.tsx:93 | the suggestions to add are exactly those whose name is not in the added set |
| SkillSuggestions.AddAllDisabledIff | src/components/dashboard/SkillSuggestionsCard.tsx:153 | "Add All" is disabled iff nothing is left to add |
| SkillSuggestions.InsertsFor | src/components/dashboard/SkillSuggestionsCard.tsx:74-79 | one insert per suggestion, in order, with the user, the goal, the name and progress 0 |
| SkillSuggestions.SucceededMeans | src/components/dashboard/SkillSuggestionsCard.tsx:83 | a name is recorded as added iff one of its inserts succeeded |
| SkillSuggestions.AddAllCompletes | src/components/dashboard/SkillSuggestionsCard.tsx:153 | after "Add All" with every insert succeeding, "Add All" is disabled |
| SkillSuggestions.Card.constructor | src/components/dashboard/SkillSuggestionsCard.tsx:39-42 | no suggestions, not loading, nothing added, not generated |
| SkillSuggestions.Card.Generate | src/components/dashboard/SkillSuggestionsCard.tsx:44-70 | an error (or a null body) toasts and keeps the suggestions; a list (`skills` or the body itself) shows its fresh items and marks generated; anything else changes nothing; loading ends |
| SkillSuggestions.Card.AddSkill | src/components/dashboard/SkillSuggestionsCard.tsx:72-90 | inserts the suggestion; the name is recorded and the parent told only on success |
| SkillSuggestions.Card.AddAll | src/components/dashboard/SkillSuggestionsCard.tsx:92-97 | inserts exactly the not-yet-added suggestions, in list order, and records the names whose insert succeeded |
| ResourceLibrary.CategoryColumn | src/components/dashboard/ResourceLibrary.tsx:58 | the category of each row, in order |
| ResourceLibrary.Categories | src/components/dashboard/ResourceLibrary.tsx:58 | the category buttons are distinct and are exactly the categories of the rows |
| ResourceLibrary.CategoriesInFirstOrder | src/components/dashboard/ResourceLibrary.tsx:58 | the buttons are in the order their categories first occur |
| ResourceLibrary.FilteredResources | src/components/dashboard/ResourceLibrary.tsx:64-67 | "all" shows every row; otherwise the rows filtered by that category, so exactly those rows in their original order |
| ResourceLibrary.EveryResourceReachable | src/components/dashboard/ResourceLibrary.tsx:128-138 | every row's category has a button, and that button shows the row |
| ResourceLibrary.CountBadge | src/components/dashboard/ResourceLibrary.tsx:114 | the badge counts the rows of the selected category (all rows for "all") |
| ResourceLibrary.HourSplit | src/components/dashboard/ResourceLibrary.tsx:72-73 | for an hour or more, hours ≥ 1, minutes 0..59, and hours·60 + minutes = the duration |
| ResourceLibrary.FormatDuration | src/components/dashboard/ResourceLibrary.tsx:69-75 | no text iff the duration is null or 0; "Mm" for a non-zero duration below an hour; from an hour up, with H hours and M minutes split so that 60·H + M is the duration and 0 ≤ M < 60, "Hh" when M is 0 and "Hh Mm" otherwise |
| ResourceLibrary.MinutesTextRoundTrip | src/components/dashboard/ResourceLibrary.tsx:71 | "Mm" reads back as M minutes |
| ResourceLibrary.HoursTextRoundTrip | src/components/dashboard/ResourceLibrary.tsx:74 | "Hh" reads back as H hours |
| ResourceLibrary.HoursMinutesTextRoundTrip | src/components/dashboard/ResourceLibrary.tsx:74 | "Hh Mm" reads back as H hours and M minutes |
| ResourceLibrary.DurationRoundTrip | src/components/dashboard/ResourceLibrary.tsx:69-75 | every positive duration has a text that reads back as that duration |
| ResourceLibrary.CostLabel | src/components/dashboard/ResourceLibrary.tsx:207 | the label is "Free" iff the cost is "free" (or already "Free"); any other cost is shown as stored |
| ResourceLibrary.CostLabelIdempotent | src/components/dashboard/ResourceLibrary.tsx:207 | labelling a label changes nothing |
| ResourceLibrary.Library.constructor | src/components/dashboard/ResourceLibrary.tsx:38-41 | no rows, loading, category "all", no buttons |
| ResourceLibrary.Library.Fetch | src/components/dashboard/ResourceLibrary.tsx:47-62 | rows replace the list and rebuild the buttons; an error or no data keeps both; loading ends |
| ResourceLibrary.Library.SelectCategory | src/components/dashboard/ResourceLibrary.tsx:120-138 | the selection becomes "all" or a button's category |
| ResourceLibrary.Library.Shown | src/components/dashboard/ResourceLibrary.tsx:64-67 | the rows on screen never outnumber the rows held |
| DailyPlanCard.Toggle | src/components/dashboard/DailyPlanCard.tsx:92-97 | same length and order; a task's completion flips iff it has the id; nothing else changes |
| DailyPlanCard.ToggleInvolution | src/components/dashboard/DailyPlanCard.tsx:94-96 | toggling the same id twice gives back the list |
| DailyPlanCard.ToggleCommutes | src/components/dashboard/DailyPlanCard.tsx:92-97 | toggles of two ids commute |
| DailyPlanCard.CompletedCount | src/components/dashboard/DailyPlanCard.tsx:88 | the completed count never exceeds the task count |
| DailyPlanCard.ToggleCount | src/components/dashboard/DailyPlanCard.tsx:88 | with unique ids, a toggle moves the completed count by exactly one in the flipped direction |
| DailyPlanCard.Durations | src/components/dashboard/DailyPlanCard.tsx:89 | the durations of the tasks, in order |
| DailyPlanCard.TotalDuration | src/components/dashboard/DailyPlanCard.tsx:89 | the total minutes are non-negative when every task's duration is |
| DailyPlanCard.ToggleKeepsDuration | src/components/dashboard/DailyPlanCard.tsx:89 | toggling never changes the total minutes |
| DailyPlanCard.Progress | src/components/dashboard/DailyPlanCard.tsx:90 | undefined (NaN) iff there are no tasks; otherwise in 0..100, and 100 iff every task is completed |
| DailyPlanCard.StartDisabledIff | src/components/dashboard/DailyPlanCard.tsx:220 | the start button is disabled iff every task is completed |
| DailyPlanCard.Card.constructor | src/components/dashboard/DailyPlanCard.tsx:86 | the local copy is the tasks given |
| DailyPlanCard.Card.ToggleTask | src/components/dashboard/DailyPlanCard.tsx:92-99 | the local tasks are toggled, and a listening parent is told the id on every toggle |
| LearningOutcome.StoredNote | src/components/dashboard/LearningOutcomeModal.tsx:59 | an empty note is stored as null, any other as typed |
| LearningOutcome.StoredNoteRoundTrip | src/components/dashboard/LearningOutcomeModal.tsx:59 | reading the stored note back, with null as empty, gives the note typed |
| LearningOutcome.Insertion | src/components/dashboard/LearningOutcomeModal.tsx:47-61 | a row is inserted iff both a (non-zero) clarity and a difficulty are given, and it carries the user, skill, clarity, stored note and difficulty |
| LearningOutcome.EnabledSubmitInserts | src/components/dashboard/LearningOutcomeModal.tsx:174 | whenever the submit button is enabled, a row is inserted |
| LearningOutcome.Form.constructor | src/components/dashboard/LearningOutcomeModal.tsx:40-43 | no answers, an empty note, not saving |
| LearningOutcome.Form.ChooseClarity | src/components/dashboard/LearningOutcomeModal.tsx:115 | the clarity is the chosen 1..5 value |
| LearningOutcome.Form.SetNote | src/components/dashboard/LearningOutcomeModal.tsx:139 | the note is what was typed |
| LearningOutcome.Form.ChooseDifficulty | src/components/dashboard/LearningOutcomeModal.tsx:156 | the difficulty is the chosen option |
| LearningOutcome.Form.Submit | src/components/dashboard/LearningOutcomeModal.tsx:47-74 | callable only while not saving (the button's guard), and not saving afterwards; the insert is made only with both answers, with clarity in 1..5 and a known difficulty; the callbacks are complete then close, only after a successful insert |
| ConfidenceUpdate.ConfidenceLabel | src/components/dashboard/ConfidenceUpdateModal.tsx:55-61 | "Just starting" iff the score is at most 2; "Ready to apply!" iff it is above 8 |
| ConfidenceUpdate.ConfidenceColour | src/components/dashboard/ConfidenceUpdateModal.tsx:63-67 | red-orange iff the score is at most 3, amber-yellow iff 4..6, green-emerald iff at least 7 |
| ConfidenceUpdate.InitialConfidence | src/components/dashboard/ConfidenceUpdateModal.tsx:25 | the slider starts at the current confidence, or 5 when it is null or 0 |
| ConfidenceUpdate.LabelBands | src/components/dashboard/ConfidenceUpdateModal.tsx:55-61 | on 1..10 each label covers two positions: rank = (score − 1)/2 |
| ConfidenceUpdate.LabelMonotone | src/components/dashboard/ConfidenceUpdateModal.tsx:55-61 | a higher score never gets a lower label |
| ConfidenceUpdate.LabelTextInjective | src/components/dashboard/ConfidenceUpdateModal.tsx:55-61 | different bands show different texts |
| ConfidenceUpdate.ColourBands | src/components/dashboard/ConfidenceUpdateModal.tsx:63-67 | colours never fall as scores rise |
| ConfidenceUpdate.Comparison | src/components/dashboard/ConfidenceUpdateModal.tsx:124-133 | shown iff a non-zero previous score exists; "Growing" iff higher, "keep going" iff lower, no remark iff equal |
| ConfidenceUpdate.UntouchedSliderNoRemark | src/components/dashboard/ConfidenceUpdateModal.tsx:124-133 | an untouched slider shows no growth or decline remark |
| ConfidenceUpdate.SubmitChangesOnlyConfidence | src/components/dashboard/ConfidenceUpdateModal.tsx:33-40 | submitting writes the chosen score and today's date and leaves every other column unchanged |
| ConfidenceUpdate.Modal.constructor | src/components/dashboard/ConfidenceUpdateModal.tsx:25-26 | the slider starts at the initial confidence, not saving |
| ConfidenceUpdate.Modal.Slide | src/components/dashboard/ConfidenceUpdateModal.tsx:110-115 | the confidence is the slider's 1..10 value |
| ConfidenceUpdate.Modal.Submit | src/components/dashboard/ConfidenceUpdateModal.tsx:30-53 | the update carries the chosen score and today; complete then close run only on success |
| AddSkill.Pick | src/components/dashboard/AddSkillModal.tsx:48-53 | the result is the fallback or the list of a matching entry, and the fallback when no entry matches |
| AddSkill.FirstMatch | src/components/dashboard/AddSkillModal.tsx:48-51 | the first entry whose lowercased key the lowercased title includes, or none when no entry matches |
| AddSkill.PickChoice | src/components/dashboard/AddSkillModal.tsx:48-53 | over any table, a key that matches after no earlier match picks its list; when nothing before the last entry matches and the fallback is that entry's list, the fallback is picked |
| AddSkill.Suggestions | src/components/dashboard/AddSkillModal.tsx:16-24 | the suggestions are always one of the table's lists |
| AddSkill.SuggestionsChoice | src/components/dashboard/AddSkillModal.tsx:47-53 | the first matching real key's list is shown; with no earlier match the default list is shown |
| AddSkill.Search | src/components/dashboard/AddSkillModal.tsx:48-53 | the loop returns the list `Pick` chooses: the first matching entry's list, else the fallback |
| AddSkill.GetSuggestions | src/components/dashboard/AddSkillModal.tsx:47-54 | `getSuggestions` returns the first matching key's list, else the default list |
| AddSkill.TypedSubmission | src/components/dashboard/AddSkillModal.tsx:36-37 | nothing iff the text is blank; otherwise the trimmed text, which is non-empty |
| AddSkill.Form.constructor | src/components/dashboard/AddSkillModal.tsx:32 | the box starts empty |
| AddSkill.Form.Type | src/components/dashboard/AddSkillModal.tsx:98 | the box holds what was typed |
| AddSkill.Form.Submit | src/components/dashboard/AddSkillModal.tsx:34-40 | a non-blank name is submitted trimmed and the box cleared; a blank one submits nothing and changes nothing |
| AddSkill.Form.SuggestionClick | src/components/dashboard/AddSkillModal.tsx:42-44 | the suggestion is submitted unchanged and the box is left alone |
| RecoveryMode.MessageIndex | src/components/dashboard/RecoveryModeCard.tsx:18 | the index is min(missedDays − 1, 3) |
| RecoveryMode.Message | src/components/dashboard/RecoveryModeCard.tsx:18 | a message exists iff the index is non-negative, and it is one of the four |
| RecoveryMode.MessageSelection | src/components/dashboard/RecoveryModeCard.tsx:10-18 | 1, 2, 3 missed days pick messages 0, 1, 2; four or more pick the last |
| RecoveryMode.IndexInRange | src/components/dashboard/RecoveryModeCard.tsx:18 | for missedDays ≥ 1 the index lies inside the array |
| RecoveryMode.NoMessageWithoutMissedDays | src/components/dashboard/RecoveryModeCard.tsx:18 | for missedDays ≤ 0 the index is negative and no message exists |

## Left out

- **Record store.** Supabase queries are not modelled: the client, row-level security, `.select().single()` and errors thrown as exceptions. Each handler takes the store's answer as a parameter: a success flag, the row read, or an error.
  - The other wrappers in `src/services/api.ts` only forward to the store: auth, goals, skills, streaks, reflections, profile and resources.
  - The `is_featured`/`rating` order of the resources query is the store's, and the model takes the rows in whatever order they arrive.
- **Skill-suggestion edge function.** `supabase/functions/suggest-skills/index.ts` is an HTTP handler that calls an external AI service, so it is not part of this model. Its reply is an input to `SkillSuggestions.Card.Generate`.
- **Clock and time zones.** `new Date().toISOString().split("T")[0]` is the parameter `today`. The streak history's calendar arithmetic (`setDate`) is abstracted to day numbers `today − i`.
- **Locale formatting.** `toLocaleDateString` is a `formatDate` parameter of the export mapping. `localeCompare` on ISO date strings is modelled as code-point order (`Text.Leq`), which agrees on ISO dates.
- **Floating point.** Means, halving and the progress percentage are computed on `real`, without rounding. `toFixed(1)` is left out. JavaScript's `NaN` (the progress of an empty task list) is `None`.
- **Text.**
  - `toLowerCase` is modelled on ASCII letters only.
  - `trim` covers the ASCII, no-break, BOM and line/paragraph separator spaces, but not the other Unicode space characters.
- **Concurrency and in-flight flags.** `Promise.all`, overlapping handlers and React's batched state updates are not modelled. The `isSubmitting`/`saving`/`loading` flags appear only as the precondition of the handler whose button they disable (`Onboarding.Wizard.Next`, `LearningOutcome.Form.Submit`, `ConfidenceUpdate.Modal.Submit`, `SkillSuggestions.Card.Generate`), and these handlers leave them false. DailyPlan's `isCompleting` flag is not modelled: `DailyPlan.Session.FinishSession` returns its store calls and does not change the session.
- **Rendering.** Left out:
  - animations, charts, icons, toasts and navigation;
  - the print window (the export is modelled up to its field mapping and the notes block);
  - modal visibility (`isOpen`/`onClose` other than the close callback);
  - React's rendering of a `0` duration in `duration_minutes && …`.
- **Out of scope.**
  - Pages and widgets that only display data: the dashboard's mock data, the goal-progress and streak cards, the profile page, the landing sections, the header and the footer.
  - The generated schema typing, whose record shapes are reproduced in `Api`.
- **Behaviour the code does not contain.** Neither of these is modelled as if implemented:
  - a same-day practice guard;
  - missed-day or recovery detection.
  There is also no goal-progress mean and no check-in-due predicate.
- ConfidenceUpdate.Modal.Submit: the update's target skill id is fixed by the modal's props and is not part of the returned record.
- DailyPlan.Session.FinishSession: the success toast, navigation and the `isCompleting` flag are not modelled.
- SkillSuggestions.Card.AddAll: each insert's success is an input (`oks`), fixed in advance rather than observed between awaits.
