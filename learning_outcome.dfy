/**
 * The learning-outcome modal of the dashboard
 * (src/components/dashboard/LearningOutcomeModal.tsx): a clarity answer
 * (1..5), a difficulty answer, an optional confusion note, and the submit
 * that inserts a learning outcome only when both answers are given.
 */
module LearningOutcome {
  import opened Wrappers
  import Api

  /** The values of the clarity buttons and of the difficulty buttons. */
  predicate IsClarity(v: int) {
    1 <= v <= 5
  }

  const DifficultyOptions: seq<string> := ["too_easy", "just_right", "too_hard"]

  /** `confusionNote || null`: an empty note is stored as null. */
  function StoredNote(note: string): (r: Option<string>)
    ensures r.None? <==> note == ""
    ensures r.Some? ==> r.value == note
  {
    if note == "" then None else Some(note)
  }

  /** Reading a stored note back, with null shown as empty, gives the note typed. */
  lemma StoredNoteRoundTrip(note: string)
    ensures StoredNote(note).GetOr("") == note
  {
  }

  /** The row the submit inserts, when both answers are there (`!clarityGain` also rejects 0). */
  function Insertion(userId: string, skillId: string, clarity: Option<int>, note: string, difficulty: Option<string>)
    : (r: Option<Api.ReflectionInsert>)
    ensures r.Some? <==> clarity.Some? && clarity.value != 0 && difficulty.Some? && difficulty.value != ""
    ensures r.Some? ==> r.value.userId == userId && r.value.skillId == skillId
                        && r.value.clarityGain == clarity.value && r.value.confusionNote == StoredNote(note)
                        && r.value.difficultyFeeling == difficulty
  {
    if clarity.None? || clarity.value == 0 || difficulty.None? || difficulty.value == "" then None
    else Some(Api.ReflectionInsert(userId, skillId, clarity.value, StoredNote(note), difficulty))
  }

  /** Submit is disabled while saving or while either answer is missing. */
  predicate SubmitDisabled(saving: bool, clarity: Option<int>, difficulty: Option<string>) {
    saving || clarity.None? || clarity.value == 0 || difficulty.None? || difficulty.value == ""
  }

  /** Whenever the button can be pressed, the submit inserts a row. */
  lemma EnabledSubmitInserts(userId: string, skillId: string, clarity: Option<int>, note: string,
                             difficulty: Option<string>)
    requires !SubmitDisabled(false, clarity, difficulty)
    ensures Insertion(userId, skillId, clarity, note, difficulty).Some?
  {
  }

  /** The parent's callbacks, in the order they run. */
  datatype Callback = Complete | Close

  /** The modal's form. */
  class Form {
    var clarityGain: Option<int>
    var confusionNote: string
    var difficulty: Option<string>
    var saving: bool

    /** Answers only ever come from the buttons. */
    ghost predicate Valid()
      reads this
    {
      && (clarityGain.Some? ==> IsClarity(clarityGain.value))
      && (difficulty.Some? ==> difficulty.value in DifficultyOptions)
    }

    constructor ()
      ensures Valid() && clarityGain == None && confusionNote == "" && difficulty == None && !saving
    {
      clarityGain := None;
      confusionNote := "";
      difficulty := None;
      saving := false;
    }

    method ChooseClarity(v: int)
      requires Valid() && IsClarity(v)
      modifies this`clarityGain
      ensures Valid() && clarityGain == Some(v)
    {
      clarityGain := Some(v);
    }

    method SetNote(note: string)
      modifies this`confusionNote
      ensures confusionNote == note
    {
      confusionNote := note;
    }

    method ChooseDifficulty(tag: string)
      requires Valid() && tag in DifficultyOptions
      modifies this`difficulty
      ensures Valid() && difficulty == Some(tag)
    {
      difficulty := Some(tag);
    }

    /**
     * `handleSubmit`: with an answer missing, nothing is inserted;
     * otherwise the row is inserted and, only if that succeeds, the parent
     * is told the outcome is complete and the modal closes. The saving flag
     * is back to false when it ends.
     */
    method Submit(userId: string, skillId: string, insertOk: bool)
      returns (insert: Option<Api.ReflectionInsert>, callbacks: seq<Callback>)
      requires Valid() && !saving
      ensures !saving
      ensures insert == Insertion(userId, skillId, clarityGain, confusionNote, difficulty)
      ensures insert.Some? ==> 1 <= insert.value.clarityGain <= 5
      ensures insert.Some? ==> insert.value.difficultyFeeling.value in DifficultyOptions
      ensures callbacks == if insert.Some? && insertOk then [Complete, Close] else []
    {
      insert := Insertion(userId, skillId, clarityGain, confusionNote, difficulty);
      callbacks := if insert.Some? && insertOk then [Complete, Close] else [];
    }
  }
}
