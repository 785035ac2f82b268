/**
 * The confidence check-in modal of the dashboard
 * (src/components/dashboard/ConfidenceUpdateModal.tsx): the slider's
 * starting value, the label and colour bands of a score, the comparison
 * with the previous score and the skill update written on submit.
 */
module ConfidenceUpdate {
  import opened Wrappers
  import Api

  /** `currentConfidence || 5`: the slider starts at the current score, or 5 when there is none or it is 0. */
  function InitialConfidence(current: Option<int>): (v: int)
    ensures current.Some? && current.value != 0 ==> v == current.value
    ensures current.None? || current.value == 0 ==> v == 5
  {
    if current.Some? && current.value != 0 then current.value else 5
  }

  /** The five label bands. */
  datatype Label = JustStarting | GettingFamiliar | BuildingMomentum | FeelingConfident | ReadyToApply

  /** `getConfidenceLabel`: bands up to 2, 4, 6, 8, and above. */
  function ConfidenceLabel(score: int): (l: Label)
    ensures l == JustStarting <==> score <= 2
    ensures l == ReadyToApply <==> score > 8
  {
    if score <= 2 then JustStarting
    else if score <= 4 then GettingFamiliar
    else if score <= 6 then BuildingMomentum
    else if score <= 8 then FeelingConfident
    else ReadyToApply
  }

  function LabelText(l: Label): string {
    match l
    case JustStarting => "Just starting"
    case GettingFamiliar => "Getting familiar"
    case BuildingMomentum => "Building momentum"
    case FeelingConfident => "Feeling confident"
    case ReadyToApply => "Ready to apply!"
  }

  /** The rank of a band, lowest first. */
  function LabelRank(l: Label): int {
    match l
    case JustStarting => 0
    case GettingFamiliar => 1
    case BuildingMomentum => 2
    case FeelingConfident => 3
    case ReadyToApply => 4
  }

  /** Each band covers two slider positions, so on 1..10 the band is `(score - 1) / 2`. */
  lemma LabelBands(score: int)
    requires 1 <= score <= 10
    ensures LabelRank(ConfidenceLabel(score)) == (score - 1) / 2
  {
  }

  /** A higher score never gets a lower label. */
  lemma LabelMonotone(a: int, b: int)
    requires a <= b
    ensures LabelRank(ConfidenceLabel(a)) <= LabelRank(ConfidenceLabel(b))
  {
  }

  /** Different bands show different texts. */
  lemma LabelTextInjective(l: Label, m: Label)
    requires LabelText(l) == LabelText(m)
    ensures l == m
  {
    assert LabelText(l)[0] == LabelText(m)[0];
    assert |LabelText(l)| == |LabelText(m)|;
  }

  /** The three colour bands. */
  datatype Colour = RedOrange | AmberYellow | GreenEmerald

  /** `getConfidenceColor`: bands up to 3, 6, and above. */
  function ConfidenceColour(score: int): (c: Colour)
    ensures c == RedOrange <==> score <= 3
    ensures c == AmberYellow <==> 4 <= score <= 6
    ensures c == GreenEmerald <==> score >= 7
  {
    if score <= 3 then RedOrange else if score <= 6 then AmberYellow else GreenEmerald
  }

  /** Colours never fall as scores rise. */
  lemma ColourBands(a: int, b: int)
    requires a <= b
    ensures ConfidenceColour(a) == GreenEmerald ==> ConfidenceColour(b) == GreenEmerald
    ensures ConfidenceColour(b) == RedOrange ==> ConfidenceColour(a) == RedOrange
  {
  }

  /** The remark beside the previous score. */
  datatype Remark = Growing | KeepGoing | NoRemark

  /**
   * The comparison line: shown only when a (non-zero) previous score
   * exists; it remarks growth when the new score is higher, encouragement
   * when it is lower, and nothing on a tie.
   */
  function Comparison(previous: Option<int>, chosen: int): (r: Option<Remark>)
    ensures r.None? <==> previous.None? || previous.value == 0
    ensures r == Some(Growing) <==> previous.Some? && previous.value != 0 && chosen > previous.value
    ensures r == Some(KeepGoing) <==> previous.Some? && previous.value != 0 && chosen < previous.value
    ensures r == Some(NoRemark) <==> previous.Some? && previous.value != 0 && chosen == previous.value
  {
    if previous.None? || previous.value == 0 then None
    else if chosen > previous.value then Some(Growing)
    else if chosen < previous.value then Some(KeepGoing)
    else Some(NoRemark)
  }

  /** Leaving the slider where it started never shows a remark other than the tie. */
  lemma UntouchedSliderNoRemark(previous: Option<int>)
    ensures Comparison(previous, InitialConfidence(previous)).None? ||
            Comparison(previous, InitialConfidence(previous)) == Some(NoRemark)
  {
  }

  /** The update `handleSubmit` writes: the chosen score and today's date. */
  function SubmittedUpdate(chosen: int, today: string): Api.ConfidenceUpdate {
    Api.ConfidenceUpdate(chosen, today)
  }

  /** Submitting changes the skill's score and check-in date and nothing else. */
  lemma SubmitChangesOnlyConfidence(s: Api.Skill, chosen: int, today: string)
    ensures var t := Api.ApplyConfidence(s, SubmittedUpdate(chosen, today));
      && t.confidenceScore == Some(chosen) && t.lastConfidenceUpdate == Some(today)
      && t.(confidenceScore := s.confidenceScore, lastConfidenceUpdate := s.lastConfidenceUpdate) == s
  {
  }

  /** The parent's callbacks, in the order they run. */
  datatype Callback = Complete | Close

  /** The modal: the slider value and the saving flag. */
  class Modal {
    var confidence: int
    var saving: bool

    constructor (current: Option<int>)
      ensures confidence == InitialConfidence(current) && !saving
    {
      confidence := InitialConfidence(current);
      saving := false;
    }

    /** Moving the range input, which only yields integers 1..10. */
    method Slide(v: int)
      requires 1 <= v <= 10
      modifies this`confidence
      ensures confidence == v
    {
      confidence := v;
    }

    /**
     * `handleSubmit`, enabled while not saving: write the update; only on
     * success tell the parent and close. Saving is over when it returns.
     */
    method Submit(today: string, updateOk: bool) returns (update: Api.ConfidenceUpdate, callbacks: seq<Callback>)
      requires !saving
      ensures update.confidenceScore == confidence && update.lastConfidenceUpdate == today
      ensures callbacks == if updateOk then [Complete, Close] else []
    {
      update := SubmittedUpdate(confidence, today);
      callbacks := if updateOk then [Complete, Close] else [];
    }
  }
}
